/** The packet reader of one connection as a value: what each handler call makes of what
    recv() comes to, however the byte stream is cut up. */
module AdbReader {
  import opened Buf
  import opened Wire
  import opened Packet

  /** What one recv() call on the socket can come to; a call asking for less than a
      segment leaves the rest of it for the next. */
  datatype Recv = Segment(bytes: seq<byte>) | Again | Eof | Failed

  /** The result of recv() for `size` bytes of room, and what is left to be received. */
  datatype Got = Data(bytes: seq<byte>) | NotReady | Closing

  function Receive(incoming: seq<Recv>, size: nat): (Got, seq<Recv>) {
    if incoming == [] then (NotReady, []) else
    match incoming[0]
    case Again => (NotReady, incoming[1..])
    case Eof => (Closing, incoming[1..])
    case Failed => (Closing, incoming[1..])
    case Segment(b) =>
      if size == 0 || b == [] then (Closing, incoming)
      else if |b| <= size then (Data(b), incoming[1..])
      else (Data(b[..size]), [Segment(b[size..])] + incoming[1..])
  }

  /** Where a connection stands between handler calls, or what a call ended with.
      `Assembling` and `Reading` hold the buffer up to `last`; in `Reading` the header is
      parsed and the payload starts at offset 24.  `Parsed` is a packet handed on, `Blocked`
      a connection whose packet was not answered.  `Wild` means that `last` was moved below
      the buffer, or that a negative number of bytes was appended to the packet. */
  datatype Conn =
    | Waiting
    | Assembling(buf: seq<byte>)
    | Reading(h: Header, mem: seq<byte>)
    | Parsed(h: Header, payload: seq<byte>)
    | Blocked
    | Closed
    | Wild

  datatype Step = Step(conn: Conn, ready: bool, incoming: seq<Recv>)

  /** recv() is called only when the event is ready; a failure or AGAIN clears that. */
  function Pull(ready: bool, incoming: seq<Recv>, size: nat): (Got, bool, seq<Recv>) {
    if !ready then (NotReady, false, incoming) else
    var (g, rest) := Receive(incoming, size);
    (g, g.Data?, rest)
  }

  /** The payload handler: reads at most once, then parses whatever is there.  After AGAIN
      the code for it, -2, is added to `last`. */
  function ReadPayload(h: Header, mem: seq<byte>, ready: bool, incoming: seq<Recv>): Step {
    if |mem| >= HEADER_SIZE + h.dlen then Step(Parsed(h, mem[HEADER_SIZE..]), ready, incoming)
    else if |mem| > ADB_MAX_PACKET_SIZE then Step(Wild, ready, incoming) else
    var (g, ready', rest) := Pull(ready, incoming, ADB_MAX_PACKET_SIZE - |mem|);
    match g
    case NotReady => Step(if |mem| < 2 then Wild else Reading(h, mem[..|mem| - 2]), ready', rest)
    case Closing => Step(Closed, ready', rest)
    case Data(b) => Step(if |mem| + |b| < HEADER_SIZE then Wild else Parsed(h, (mem + b)[HEADER_SIZE..]), ready', rest)
  }

  /** The header is taken from the start of the buffer once 24 bytes are there. */
  function ParseHeader(buf: seq<byte>, ready: bool, incoming: seq<Recv>): Step {
    if |buf| < HEADER_SIZE then Step(Assembling(buf), ready, incoming)
    else ReadPayload(DecodeHeader(buf[..HEADER_SIZE]), buf, ready, incoming)
  }

  function ReadHeader(buf: seq<byte>, ready: bool, incoming: seq<Recv>): Step {
    if |buf| >= HEADER_SIZE || |buf| > ADB_MAX_PACKET_SIZE then ParseHeader(buf, ready, incoming) else
    var (g, ready', rest) := Pull(ready, incoming, ADB_MAX_PACKET_SIZE - |buf|);
    match g
    case NotReady => Step(Assembling(buf), ready', rest)
    case Closing => Step(Closed, ready', rest)
    case Data(b) => ParseHeader(buf + b, ready', rest)
  }

  /** The wait handler resets the buffer and receives from its start. */
  function WaitPacket(ready: bool, incoming: seq<Recv>): Step {
    var (g, rest) := Receive(incoming, ADB_MAX_PACKET_SIZE);
    match g
    case NotReady => Step(Waiting, false, rest)
    case Closing => Step(Closed, false, rest)
    case Data(b) => ReadHeader(b, ready, rest)
  }

  /** One call of the connection's read handler. */
  function CallAt(c: Conn, ready: bool, incoming: seq<Recv>): Step {
    match c
    case Waiting => WaitPacket(ready, incoming)
    case Assembling(buf) => ReadHeader(buf, ready, incoming)
    case Reading(h, mem) => ReadPayload(h, mem, ready, incoming)
    case _ => Step(c, ready, incoming)
  }

  /** ... for an event found ready. */
  function Call(c: Conn, incoming: seq<Recv>): Step {
    CallAt(c, true, incoming)
  }

  /** `n` calls, one after the other. */
  function Calls(c: Conn, incoming: seq<Recv>, n: nat): Step
    decreases n
  {
    if n == 0 then Step(c, true, incoming) else
    var s := Call(c, incoming);
    Calls(s.conn, s.incoming, n - 1)
  }

  // ----------------------------------------------------- header assembly

  /** The bytes a script delivers. */
  function Flat(incoming: seq<Recv>): seq<byte> {
    if incoming == [] then [] else
    (if incoming[0].Segment? then incoming[0].bytes else []) + Flat(incoming[1..])
  }

  /** No end of stream, no error, and no empty segment. */
  ghost predicate Steady(incoming: seq<Recv>) {
    forall i :: 0 <= i < |incoming| ==> incoming[i] == Again || (incoming[i].Segment? && incoming[i].bytes != [])
  }

  lemma SplitSegment(incoming: seq<Recv>, size: nat)
    requires incoming != [] && incoming[0].Segment? && size < |incoming[0].bytes|
    ensures var b := incoming[0].bytes;
      Flat(incoming) == b[..size] + Flat([Segment(b[size..])] + incoming[1..])
  {
  }

  lemma ReceiveConserves(incoming: seq<Recv>, size: nat)
    requires Steady(incoming) && size > 0
    ensures var (g, rest) := Receive(incoming, size);
      && Steady(rest) && !g.Closing?
      && (g.Data? ==> 0 < |g.bytes| <= size && (|g.bytes| < size ==> |rest| < |incoming|))
      && (g.NotReady? ==> |rest| < |incoming| || rest == incoming == [])
      && Flat(incoming) == (if g.Data? then g.bytes else []) + Flat(rest)
  {
    if incoming != [] {
      assert Steady(incoming[1..]);
      if incoming[0].Segment? && |incoming[0].bytes| > size {
        SplitSegment(incoming, size);
        assert Steady([Segment(incoming[0].bytes[size..])] + incoming[1..]);
      }
      if incoming[0] == Again {
        assert [] + Flat(incoming[1..]) == Flat(incoming);
      }
    }
  }

  /** The header, in whatever state holds it, is the first 24 bytes of the stream. */
  ghost predicate HeaderIs(c: Conn, stream: seq<byte>) {
    && |stream| >= HEADER_SIZE
    && (c.Reading? ==> c.h == DecodeHeader(stream[..HEADER_SIZE]))
    && (c.Parsed? ==> c.h == DecodeHeader(stream[..HEADER_SIZE]))
  }

  predicate InHeader(c: Conn) {
    c.Waiting? || c.Assembling?
  }

  /** What has been taken so far is what the buffer holds. */
  function Buffered(c: Conn): seq<byte> {
    if c.Assembling? then c.buf else []
  }

  ghost predicate Between(c: Conn) {
    c.Waiting? || (c.Assembling? && 0 < |c.buf| < HEADER_SIZE)
  }

  lemma PayloadKeepsHeader(h: Header, mem: seq<byte>, ready: bool, incoming: seq<Recv>)
    ensures var s := ReadPayload(h, mem, ready, incoming);
      && !InHeader(s.conn)
      && (s.conn.Reading? || s.conn.Parsed? ==> s.conn.h == h)
  {
  }

  /** From a buffer of fewer than 24 bytes, or of a whole first read, one header read
      either keeps every byte and stays, or has the header. */
  lemma HeaderStep(buf: seq<byte>, incoming: seq<Recv>)
    requires Steady(incoming) && buf != []
    ensures var s := ReadHeader(buf, true, incoming);
      if InHeader(s.conn) then
        && Between(s.conn) && Steady(s.incoming)
        && (|s.incoming| < |incoming| || s.incoming == incoming == [])
        && buf + Flat(incoming) == Buffered(s.conn) + Flat(s.incoming)
      else HeaderIs(s.conn, buf + Flat(incoming))
  {
    hide DecodeHeader, ReadPayload, Receive, Steady, Flat;
    if |buf| >= HEADER_SIZE {
      PayloadKeepsHeader(DecodeHeader(buf[..HEADER_SIZE]), buf, true, incoming);
      assert (buf + Flat(incoming))[..HEADER_SIZE] == buf[..HEADER_SIZE];
    } else {
      var size := ADB_MAX_PACKET_SIZE - |buf|;
      ReceiveConserves(incoming, size);
      var (g, rest) := Receive(incoming, size);
      if g.Data? {
        var all := buf + g.bytes;
        assert buf + Flat(incoming) == all + Flat(rest);
        if |all| >= HEADER_SIZE {
          PayloadKeepsHeader(DecodeHeader(all[..HEADER_SIZE]), all, true, rest);
          assert (all + Flat(rest))[..HEADER_SIZE] == all[..HEADER_SIZE];
        }
      }
    }
  }

  /** One handler call before the header is complete. */
  lemma CallStep(c: Conn, incoming: seq<Recv>)
    requires Steady(incoming) && Between(c)
    ensures var s := Call(c, incoming); var stream := Buffered(c) + Flat(incoming);
      if InHeader(s.conn) then
        && Between(s.conn) && Steady(s.incoming)
        && (|s.incoming| < |incoming| || s.incoming == incoming == [])
        && stream == Buffered(s.conn) + Flat(s.incoming)
      else HeaderIs(s.conn, stream)
  {
    hide ReadHeader, Receive, Steady, Flat, HeaderIs;
    if c.Waiting? {
      ReceiveConserves(incoming, ADB_MAX_PACKET_SIZE);
      var (g, rest) := Receive(incoming, ADB_MAX_PACKET_SIZE);
      assert Buffered(c) + Flat(incoming) == Flat(incoming);
      assert [] + Flat(rest) == Flat(rest);
      if g.Data? {
        HeaderStep(g.bytes, rest);
        if InHeader(ReadHeader(g.bytes, true, rest).conn) {
          ShortRead(incoming, rest, g.bytes);
        }
      }
    } else {
      HeaderStep(c.buf, incoming);
    }
  }

  /** A first read that does not complete the header took a whole segment. */
  lemma ShortRead(incoming: seq<Recv>, rest: seq<Recv>, b: seq<byte>)
    requires Steady(incoming) && Receive(incoming, ADB_MAX_PACKET_SIZE) == (Data(b), rest)
    requires InHeader(ReadHeader(b, true, rest).conn)
    ensures |b| < HEADER_SIZE && |rest| < |incoming|
  {
  }

  lemma {:induction false} PastHeaderStays(c: Conn, incoming: seq<Recv>, n: nat, stream: seq<byte>)
    requires !InHeader(c) && HeaderIs(c, stream)
    ensures var s := Calls(c, incoming, n); !InHeader(s.conn) && HeaderIs(s.conn, stream)
    decreases n
  {
    hide DecodeHeader;
    if n > 0 {
      if c.Reading? { PayloadKeepsHeader(c.h, c.mem, true, incoming); }
      var s := Call(c, incoming);
      PastHeaderStays(s.conn, s.incoming, n - 1, stream);
    }
  }

  /** After any number of calls: before the header is complete every byte taken is in the
      buffer, fewer than 24 of them; afterwards the header is the first 24 bytes. */
  lemma {:induction false} CallsAssemble(c: Conn, incoming: seq<Recv>, n: nat)
    requires Steady(incoming) && Between(c)
    ensures var s := Calls(c, incoming, n); var stream := Buffered(c) + Flat(incoming);
      if InHeader(s.conn) then
        && Between(s.conn) && stream == Buffered(s.conn) + Flat(s.incoming)
        && (n >= |incoming| ==> s.incoming == [])
      else HeaderIs(s.conn, stream)
    decreases n
  {
    hide Call, Steady, Flat, HeaderIs;
    if n > 0 {
      CallStep(c, incoming);
      var s := Call(c, incoming);
      if InHeader(s.conn) {
        CallsAssemble(s.conn, s.incoming, n - 1);
      } else {
        PastHeaderStays(s.conn, s.incoming, n - 1, Buffered(c) + Flat(incoming));
      }
    }
  }

  /** However the stream is cut and interleaved with AGAIN: once it has all been offered,
      the connection has left the header state exactly when 24 bytes have arrived, the
      header is those first 24 bytes, and before that every byte that arrived is held. */
  lemma HeaderAssembly(incoming: seq<Recv>)
    requires Steady(incoming)
    ensures var c := Calls(Waiting, incoming, |incoming|).conn; var stream := Flat(incoming);
      && (InHeader(c) <==> |stream| < HEADER_SIZE)
      && (InHeader(c) ==> Buffered(c) == stream)
      && (!InHeader(c) ==> HeaderIs(c, stream))
  {
    hide Call, HeaderIs, Steady;
    var s := Calls(Waiting, incoming, |incoming|);
    CallsAssemble(Waiting, incoming, |incoming|);
    assert Buffered(Waiting) + Flat(incoming) == Flat(incoming);
    if InHeader(s.conn) {
      assert Buffered(s.conn) + Flat([]) == Buffered(s.conn);
    } else {
      LongEnough(s.conn, Flat(incoming));
    }
  }

  /** Two ways of cutting one stream give one header. */
  lemma SegmentationIndependent(a: seq<Recv>, b: seq<Recv>)
    requires Steady(a) && Steady(b) && Flat(a) == Flat(b)
    ensures var c, d := Calls(Waiting, a, |a|).conn, Calls(Waiting, b, |b|).conn;
      && (InHeader(c) <==> InHeader(d))
      && (InHeader(c) ==> c == d)
      && ((c.Parsed? || c.Reading?) && (d.Parsed? || d.Reading?) ==> c.h == d.h)
  {
    hide Calls, DecodeHeader;
    HeaderAssembly(a);
    HeaderAssembly(b);
    CallsBetween(a);
    CallsBetween(b);
  }

  lemma CallsBetween(incoming: seq<Recv>)
    requires Steady(incoming)
    ensures var c := Calls(Waiting, incoming, |incoming|).conn; InHeader(c) ==> Between(c)
  {
    hide HeaderIs;
    CallsAssemble(Waiting, incoming, |incoming|);
  }

  lemma LongEnough(c: Conn, stream: seq<byte>)
    requires HeaderIs(c, stream)
    ensures |stream| >= HEADER_SIZE
  {
  }

  // ------------------------------------------------- entering the payload

  lemma {:induction false} FlatAppend(a: seq<Recv>, b: seq<Recv>)
    ensures Flat(a + b) == Flat(a) + Flat(b)
  {
    if a == [] {
      assert a + b == b;
    } else {
      assert (a + b)[1..] == a[1..] + b;
      FlatAppend(a[1..], b);
    }
  }

  /** Behind `before` bytes already buffered, the last segment of `pre` completes the header. */
  ghost predicate Completes(pre: seq<Recv>, before: nat) {
    && Steady(pre) && pre != []
    && before + |Flat(pre[..|pre| - 1])| < HEADER_SIZE <= before + |Flat(pre)|
  }

  /** What of `b` is received into `size` bytes of room. */
  function Cut(b: seq<byte>, size: nat): seq<byte> {
    if |b| <= size then b else b[..size]
  }

  /** What is left of a script after a receive that came to the end of `all`. */
  function Beyond(all: seq<byte>, rest: seq<Recv>): seq<Recv> {
    if |all| <= ADB_MAX_PACKET_SIZE then rest else [Segment(all[ADB_MAX_PACKET_SIZE..])] + rest
  }

  /** Parsing starts with everything received so far. */
  function Entry(all: seq<byte>, rest: seq<Recv>): Step
    requires |all| >= HEADER_SIZE
  {
    ReadPayload(DecodeHeader(all[..HEADER_SIZE]), Cut(all, ADB_MAX_PACKET_SIZE), true, Beyond(all, rest))
  }

  lemma CompletesTail(pre: seq<Recv>, before: nat)
    requires Completes(pre, before) && |pre| > 1
    ensures Completes(pre[1..], before + |Flat([pre[0]])|)
    ensures before + |Flat([pre[0]])| < HEADER_SIZE
    ensures Flat(pre) == Flat([pre[0]]) + Flat(pre[1..])
  {
    var n := |pre| - 1;
    FlatAppend([pre[0]], pre[1..]);
    FlatAppend([pre[0]], pre[1..][..n - 1]);
    assert [pre[0]] + pre[1..] == pre && [pre[0]] + pre[1..][..n - 1] == pre[..n];
  }

  lemma FlatOne(r: Recv)
    ensures Flat([r]) == if r.Segment? then r.bytes else []
  {
  }

  lemma CompletesOne(pre: seq<Recv>, before: nat)
    requires Completes(pre, before) && |pre| == 1
    ensures pre[0].Segment? && pre[0].bytes != [] && Flat(pre) == pre[0].bytes && before < HEADER_SIZE
    ensures before + |Flat(pre)| >= HEADER_SIZE
  {
    assert pre == [pre[0]];
    FlatOne(pre[0]);
  }

  lemma CompletesLong(pre: seq<Recv>)
    requires Completes(pre, 0)
    ensures |Flat(pre)| >= HEADER_SIZE && Steady(pre)
  {
  }

  /** Receiving the next item of a script. */
  lemma NextItem(pre: seq<Recv>, rest: seq<Recv>, size: nat)
    requires pre != [] && size > 0 && (pre[0] == Again || (pre[0].Segment? && pre[0].bytes != []))
    ensures var after := pre[1..] + rest;
      Receive(pre + rest, size) ==
        if pre[0] == Again then (NotReady, after)
        else if |pre[0].bytes| <= size then (Data(pre[0].bytes), after)
        else (Data(pre[0].bytes[..size]), [Segment(pre[0].bytes[size..])] + after)
  {
    assert (pre + rest)[0] == pre[0] && (pre + rest)[1..] == pre[1..] + rest;
  }

  lemma CompletesHead(pre: seq<Recv>, before: nat)
    requires Completes(pre, before)
    ensures pre != [] && (pre[0] == Again || (pre[0].Segment? && pre[0].bytes != []))
  {
  }

  /** A header read on an incomplete header takes the next item, and goes on to the payload
      if that completes it. */
  lemma HeaderPull(buf: seq<byte>, pre: seq<Recv>, rest: seq<Recv>)
    requires 0 < |buf| < HEADER_SIZE && Completes(pre, |buf|)
    ensures var s := ReadHeader(buf, true, pre + rest);
      if |pre| == 1 then |buf + Flat(pre)| >= HEADER_SIZE && s == Entry(buf + Flat(pre), rest)
      else s.conn == Assembling(buf + Flat([pre[0]])) && s.incoming == pre[1..] + rest
  {
    hide DecodeHeader, ReadPayload, Flat, Completes, Receive;
    var size := ADB_MAX_PACKET_SIZE - |buf|;
    CompletesHead(pre, |buf|);
    NextItem(pre, rest, size);
    FlatOne(pre[0]);
    if |pre| == 1 {
      CompletesOne(pre, |buf|);
      var d := pre[0].bytes;
      assert pre[1..] + rest == rest;
      assert buf + Cut(d, size) == Cut(buf + d, ADB_MAX_PACKET_SIZE);
      assert Cut(buf + d, ADB_MAX_PACKET_SIZE)[..HEADER_SIZE] == (buf + d)[..HEADER_SIZE];
      if |d| > size { assert d[size..] == (buf + d)[ADB_MAX_PACKET_SIZE..]; }
    } else {
      CompletesTail(pre, |buf|);
      assert buf + [] == buf;
    }
  }

  /** The first bytes of a packet, when they complete the header at once. */
  lemma WholeHeader(pre: seq<Recv>, rest: seq<Recv>)
    requires Completes(pre, 0) && |pre| == 1
    ensures |Flat(pre)| >= HEADER_SIZE && WaitPacket(true, pre + rest) == Entry(Flat(pre), rest)
  {
    hide DecodeHeader, ReadPayload, Flat, Completes, Receive;
    CompletesOne(pre, 0);
    var d := pre[0].bytes;
    NextItem(pre, rest, ADB_MAX_PACKET_SIZE);
    assert pre[1..] + rest == rest;
    assert Cut(d, ADB_MAX_PACKET_SIZE)[..HEADER_SIZE] == d[..HEADER_SIZE];
  }

  /** The call that completes the header goes on to read the payload, with every byte
      received since the wait state in the buffer. */
  lemma {:induction false} EntersPayload(c: Conn, pre: seq<Recv>, rest: seq<Recv>, n: nat)
    requires Between(c) && Completes(pre, |Buffered(c)|) && n >= |pre|
    ensures var all := Buffered(c) + Flat(pre);
      exists i :: 0 < i <= n && n - i < |pre| &&
        Calls(c, pre + rest, n) ==
          Calls(Reading(DecodeHeader(all[..HEADER_SIZE]), Cut(all, ADB_MAX_PACKET_SIZE)), Beyond(all, rest), i)
    decreases |pre|
  {
    hide DecodeHeader, ReadPayload, Flat, ReadHeader, Completes, Cut, Beyond;
    var all := Buffered(c) + Flat(pre);
    var s := Call(c, pre + rest);
    CompletesHead(pre, |Buffered(c)|);
    if |pre| == 1 {
      if c.Waiting? {
        WholeHeader(pre, rest);
        assert [] + Flat(pre) == Flat(pre);
      } else {
        HeaderPull(c.buf, pre, rest);
      }
      Entered(c, all, pre + rest, rest, n);
    } else {
      CompletesTail(pre, |Buffered(c)|);
      var before := Buffered(c) + Flat([pre[0]]);
      assert all == before + Flat(pre[1..]);
      if c.Assembling? {
        HeaderPull(c.buf, pre, rest);
        EntersPayload(s.conn, pre[1..], rest, n - 1);
      } else {
        FirstItem(pre, rest);
        if pre[0] == Again {
          EntersPayload(Waiting, pre[1..], rest, n - 1);
        } else {
          assert before == pre[0].bytes && 0 + |Flat([pre[0]])| == |before|;
          HeaderPull(before, pre[1..], rest);
          if |pre| == 2 {
            Entered(c, all, pre + rest, rest, n);
          } else {
            CompletesTail(pre[1..], |before|);
            assert all == before + Flat([pre[1]]) + Flat(pre[2..]);
            EntersPayload(s.conn, pre[2..], rest, n - 1);
          }
        }
      }
    }
  }

  lemma Entered(c: Conn, all: seq<byte>, incoming: seq<Recv>, rest: seq<Recv>, n: nat)
    requires |all| >= HEADER_SIZE && n > 0 && Call(c, incoming) == Entry(all, rest)
    ensures Calls(c, incoming, n) ==
      Calls(Reading(DecodeHeader(all[..HEADER_SIZE]), Cut(all, ADB_MAX_PACKET_SIZE)), Beyond(all, rest), n)
  {
  }

  /** The first item of a script that does not complete the header at once. */
  lemma FirstItem(pre: seq<Recv>, rest: seq<Recv>)
    requires Completes(pre, 0) && |pre| > 1
    ensures pre[0] == Again || (pre[0].Segment? && 0 < |pre[0].bytes| < HEADER_SIZE && Flat([pre[0]]) == pre[0].bytes)
    ensures pre[0] == Again ==> Flat([pre[0]]) == []
    ensures WaitPacket(true, pre + rest) ==
      if pre[0] == Again then Step(Waiting, false, pre[1..] + rest) else ReadHeader(pre[0].bytes, true, pre[1..] + rest)
  {
    hide ReadHeader, Flat, Completes, Receive;
    CompletesHead(pre, 0);
    CompletesTail(pre, 0);
    FlatOne(pre[0]);
    NextItem(pre, rest, ADB_MAX_PACKET_SIZE);
  }

  // ------------------------------------------------------ payload framing

  /** `k` calls that find nothing to read, then one that gets `b`. */
  function AgainThen(k: nat, b: seq<byte>): (s: seq<Recv>)
    ensures |s| == k + 1
  {
    if k == 0 then [Segment(b)] else [Again] + AgainThen(k - 1, b)
  }

  /** `k` times AGAIN, a segment `b`, then `more`. */
  ghost predicate Continues(rest: seq<Recv>, k: nat, b: seq<byte>, more: seq<Recv>) {
    rest == AgainThen(k, b) + more && b != []
  }

  /** Every continuation of a steady script is of this form, or AGAIN to its end. */
  lemma {:induction false} EveryRest(rest: seq<Recv>)
    requires Steady(rest)
    ensures (forall i :: 0 <= i < |rest| ==> rest[i] == Again) || exists k, b, more :: Continues(rest, k, b, more)
  {
    if rest != [] {
      assert rest == [rest[0]] + rest[1..];
      if rest[0] == Again {
        EveryRest(rest[1..]);
        if k: nat, b, more :| Continues(rest[1..], k, b, more) {
          assert AgainThen(k + 1, b) == [Again] + AgainThen(k, b);
          assert Continues(rest, k + 1, b, more);
        } else {
          assert forall i :: 0 < i < |rest| ==> rest[i] == rest[1..][i - 1];
        }
      } else {
        assert AgainThen(0, rest[0].bytes) == [rest[0]];
        assert Continues(rest, 0, rest[0].bytes, rest[1..]);
      }
    }
  }

  /** Every steady script that brings a header has a part that completes it. */
  lemma {:induction false} EveryScript(incoming: seq<Recv>)
    requires Steady(incoming) && |Flat(incoming)| >= HEADER_SIZE
    ensures exists j :: 0 < j <= |incoming| && Completes(incoming[..j], 0)
    decreases |incoming|
  {
    var n := |incoming| - 1;
    if |Flat(incoming[..n])| < HEADER_SIZE {
      assert incoming[..n + 1] == incoming;
    } else {
      EveryScript(incoming[..n]);
      var j :| 0 < j <= n && Completes(incoming[..n][..j], 0);
      assert incoming[..n][..j] == incoming[..j];
    }
  }

  lemma {:induction false} Settled(c: Conn, incoming: seq<Recv>, n: nat)
    requires c.Parsed? || c.Closed? || c.Wild? || c.Blocked?
    ensures Calls(c, incoming, n) == Step(c, true, incoming)
  {
    if n > 0 {
      assert Call(c, incoming) == Step(c, true, incoming);
      Settled(c, incoming, n - 1);
    }
  }

  /** What comes of a payload after `k` times AGAIN and then the bytes `b`: each AGAIN takes
      two bytes off the end of what was received before. */
  function PayloadEnd(h: Header, mem: seq<byte>, k: nat, b: seq<byte>): Conn
    requires |mem| <= ADB_MAX_PACKET_SIZE
  {
    if 2 * k > |mem| then Wild else
    var less := mem[..|mem| - 2 * k];
    var got := Cut(b, ADB_MAX_PACKET_SIZE - |less|);
    if got == [] then Closed
    else if |less| + |got| < HEADER_SIZE then Wild
    else Parsed(h, (less + got)[HEADER_SIZE..])
  }

  lemma PayloadNow(h: Header, mem: seq<byte>, b: seq<byte>, more: seq<Recv>)
    requires |mem| < HEADER_SIZE + h.dlen && |mem| <= ADB_MAX_PACKET_SIZE
    ensures Call(Reading(h, mem), AgainThen(0, b) + more).conn == PayloadEnd(h, mem, 0, b)
  {
    var script := AgainThen(0, b) + more;
    assert script[0] == Segment(b) && mem[..|mem|] == mem;
  }

  lemma PayloadLater(h: Header, mem: seq<byte>, k: nat, b: seq<byte>, more: seq<Recv>)
    requires |mem| < HEADER_SIZE + h.dlen && |mem| <= ADB_MAX_PACKET_SIZE && k > 0
    ensures Call(Reading(h, mem), AgainThen(k, b) + more) ==
      Step(if |mem| < 2 then Wild else Reading(h, mem[..|mem| - 2]), false, AgainThen(k - 1, b) + more)
    ensures |mem| >= 2 ==> PayloadEnd(h, mem[..|mem| - 2], k - 1, b) == PayloadEnd(h, mem, k, b)
  {
    var script := AgainThen(k, b) + more;
    assert script[0] == Again && script[1..] == AgainThen(k - 1, b) + more;
    if 2 * k <= |mem| {
      var less := mem[..|mem| - 2];
      assert less[..|less| - 2 * (k - 1)] == mem[..|mem| - 2 * k];
    }
  }

  lemma {:induction false} PayloadIs(h: Header, mem: seq<byte>, k: nat, b: seq<byte>, more: seq<Recv>, n: nat)
    requires |mem| < HEADER_SIZE + h.dlen && |mem| <= ADB_MAX_PACKET_SIZE && n > k
    ensures Calls(Reading(h, mem), AgainThen(k, b) + more, n).conn == PayloadEnd(h, mem, k, b)
    decreases k
  {
    hide Call, AgainThen;
    var s := Call(Reading(h, mem), AgainThen(k, b) + more);
    if k == 0 {
      PayloadNow(h, mem, b, more);
      Settled(s.conn, s.incoming, n - 1);
    } else {
      PayloadLater(h, mem, k, b, more);
      if |mem| < 2 {
        Settled(s.conn, s.incoming, n - 1);
      } else {
        PayloadIs(h, mem[..|mem| - 2], k - 1, b, more, n - 1);
      }
    }
  }

  /** From the wait state: what comes of a header completed by `pre`, `k` times AGAIN, and
      a segment `b`, whatever follows. */
  lemma PayloadOfStream(pre: seq<Recv>, k: nat, b: seq<byte>, more: seq<Recv>)
    requires Completes(pre, 0) && |Flat(pre)| <= ADB_MAX_PACKET_SIZE
    requires |Flat(pre)| < HEADER_SIZE + DecodeHeader(Flat(pre)[..HEADER_SIZE]).dlen
    ensures var incoming := pre + AgainThen(k, b) + more; var all := Flat(pre);
      Calls(Waiting, incoming, |incoming|).conn == PayloadEnd(DecodeHeader(all[..HEADER_SIZE]), all, k, b)
  {
    hide DecodeHeader, Flat, Completes, Calls, PayloadEnd;
    CompletesLong(pre);
    var all, rest := Flat(pre), AgainThen(k, b) + more;
    var incoming := pre + AgainThen(k, b) + more;
    assert incoming == pre + rest && Buffered(Waiting) + all == all;
    EntersPayload(Waiting, pre, rest, |incoming|);
    var i :| 0 < i <= |incoming| && |incoming| - i < |pre| &&
      Calls(Waiting, pre + rest, |incoming|) ==
        Calls(Reading(DecodeHeader(all[..HEADER_SIZE]), Cut(all, ADB_MAX_PACKET_SIZE)), Beyond(all, rest), i);
    PayloadIs(DecodeHeader(all[..HEADER_SIZE]), all, k, b, more, i);
  }

  /** When the code leaves its memory: the AGAINs take `last` below the buffer, or the segment
      does not bring it back to the payload's start. */
  lemma WhenLost(pre: seq<Recv>, k: nat, b: seq<byte>, more: seq<Recv>)
    requires Completes(pre, 0) && |Flat(pre)| <= ADB_MAX_PACKET_SIZE
    requires |Flat(pre)| < HEADER_SIZE + DecodeHeader(Flat(pre)[..HEADER_SIZE]).dlen
    ensures var incoming := pre + AgainThen(k, b) + more; var n := |Flat(pre)|;
      Calls(Waiting, incoming, |incoming|).conn == Wild <==> 2 * k > n || (b != [] && n + |b| < HEADER_SIZE + 2 * k)
  {
    hide DecodeHeader, Flat, Completes, Calls;
    CompletesLong(pre);
    PayloadOfStream(pre, k, b, more);
  }

  /** A stream on which it does: a header that announces a payload, AGAIN, one byte. */
  lemma LostOnAgain(head: seq<byte>, a: byte)
    requires |head| == HEADER_SIZE && DecodeHeader(head).dlen >= 1
    ensures Calls(Waiting, [Segment(head), Again, Segment([a])], 3).conn == Wild
  {
    hide DecodeHeader, Completes, Calls;
    OneSegment(head);
    assert head[..HEADER_SIZE] == head;
    assert AgainThen(1, [a]) == [Again] + AgainThen(0, [a]) == [Again, Segment([a])];
    assert [Segment(head)] + AgainThen(1, [a]) + [] == [Segment(head), Again, Segment([a])];
    WhenLost([Segment(head)], 1, [a], []);
  }

  lemma {:induction false} OnlyAgain(h: Header, mem: seq<byte>, rest: seq<Recv>, n: nat)
    requires |mem| < HEADER_SIZE + h.dlen && |mem| <= ADB_MAX_PACKET_SIZE && forall i :: 0 <= i < |rest| ==> rest[i] == Again
    ensures Calls(Reading(h, mem), rest, n).conn == if 2 * n > |mem| then Wild else Reading(h, mem[..|mem| - 2 * n])
    decreases n
  {
    if n == 0 {
      assert mem[..|mem|] == mem;
    } else {
      var s := Call(Reading(h, mem), rest);
      if |mem| < 2 {
        Settled(s.conn, s.incoming, n - 1);
      } else {
        var less := mem[..|mem| - 2];
        if 2 * n <= |mem| { assert less[..|less| - 2 * (n - 1)] == mem[..|mem| - 2 * n]; }
        OnlyAgain(h, less, s.incoming, n - 1);
      }
    }
  }

  /** With AGAIN to the end of the script, or nothing more at all, every call that finds the
      event ready takes two more bytes, until `last` is below the buffer. */
  lemma AgainToTheEnd(pre: seq<Recv>, rest: seq<Recv>, n: nat)
    requires Completes(pre, 0) && |Flat(pre)| <= ADB_MAX_PACKET_SIZE && n >= |pre|
    requires |Flat(pre)| < HEADER_SIZE + DecodeHeader(Flat(pre)[..HEADER_SIZE]).dlen
    requires forall i :: 0 <= i < |rest| ==> rest[i] == Again
    ensures var all, c := Flat(pre), Calls(Waiting, pre + rest, n).conn;
      && (exists i :: 0 < i <= n && n - i < |pre| &&
            c == if 2 * i > |all| then Wild else Reading(DecodeHeader(all[..HEADER_SIZE]), all[..|all| - 2 * i]))
      && (2 * (n - |pre|) + 1 >= |all| ==> c == Wild)
      && (2 * n <= |all| ==> c != Wild)
  {
    hide DecodeHeader, Flat, Completes, Calls;
    CompletesLong(pre);
    var all := Flat(pre);
    var h := DecodeHeader(all[..HEADER_SIZE]);
    assert Buffered(Waiting) + all == all;
    EntersPayload(Waiting, pre, rest, n);
    var i :| 0 < i <= n && n - i < |pre| &&
      Calls(Waiting, pre + rest, n) == Calls(Reading(h, Cut(all, ADB_MAX_PACKET_SIZE)), Beyond(all, rest), i);
    OnlyAgain(h, all, rest, i);
  }

  /** The packet's payload begins with the `dlen` bytes that follow the header in the stream. */
  ghost predicate Framed(incoming: seq<Recv>) {
    var c, stream := Calls(Waiting, incoming, |incoming|).conn, Flat(incoming);
    && c.Parsed? && |stream| >= HEADER_SIZE + c.h.dlen && |c.payload| >= c.h.dlen
    && c.payload[..c.h.dlen] == stream[HEADER_SIZE..HEADER_SIZE + c.h.dlen]
  }

  lemma {:induction false} FlatAgain(k: nat, b: seq<byte>)
    ensures Flat(AgainThen(k, b)) == b
  {
    if k > 0 {
      FlatAgain(k - 1, b);
      assert AgainThen(k, b)[1..] == AgainThen(k - 1, b);
    } else {
      assert AgainThen(0, b)[1..] == [];
    }
  }

  lemma FlatScript(pre: seq<Recv>, k: nat, b: seq<byte>, more: seq<Recv>)
    ensures Flat(pre + AgainThen(k, b) + more) == Flat(pre) + b + Flat(more)
  {
    FlatAppend(pre + AgainThen(k, b), more);
    FlatAppend(pre, AgainThen(k, b));
    FlatAgain(k, b);
  }

  /** Without AGAIN, and with room for the payload, one segment that brings enough frames
      the packet; the payload is everything received, up to the size of the buffer. */
  lemma PromptPayload(pre: seq<Recv>, b: seq<byte>, more: seq<Recv>)
    requires Completes(pre, 0) && b != []
    requires var dlen := DecodeHeader(Flat(pre)[..HEADER_SIZE]).dlen;
      |Flat(pre)| < HEADER_SIZE + dlen <= ADB_MAX_PACKET_SIZE && HEADER_SIZE + dlen <= |Flat(pre)| + |b|
    ensures var incoming := pre + AgainThen(0, b) + more;
      && Framed(incoming)
      && Calls(Waiting, incoming, |incoming|).conn
         == Parsed(DecodeHeader(Flat(pre)[..HEADER_SIZE]), Cut(Flat(pre) + b, ADB_MAX_PACKET_SIZE)[HEADER_SIZE..])
  {
    hide DecodeHeader, Flat, Completes, Calls;
    CompletesLong(pre);
    var all := Flat(pre);
    PayloadOfStream(pre, 0, b, more);
    FlatScript(pre, 0, b, more);
    assert all[..|all|] == all;
    assert all + Cut(b, ADB_MAX_PACKET_SIZE - |all|) == Cut(all + b, ADB_MAX_PACKET_SIZE);
    var dlen := DecodeHeader(all[..HEADER_SIZE]).dlen;
    var got, stream := Cut(all + b, ADB_MAX_PACKET_SIZE), all + b + Flat(more);
    assert stream[..HEADER_SIZE + dlen] == got[..HEADER_SIZE + dlen];
    assert got[HEADER_SIZE..][..dlen] == got[..HEADER_SIZE + dlen][HEADER_SIZE..];
    assert stream[HEADER_SIZE..HEADER_SIZE + dlen] == stream[..HEADER_SIZE + dlen][HEADER_SIZE..];
  }

  // ------------------------------------------------- the end of the stream

  /** A header read that takes an item and still has no header. */
  lemma HeaderTakes(buf: seq<byte>, pre: seq<Recv>, rest: seq<Recv>)
    requires 0 < |buf| < HEADER_SIZE && Steady(pre) && pre != [] && |buf| + |Flat(pre)| < HEADER_SIZE
    ensures |buf| + |Flat([pre[0]])| + |Flat(pre[1..])| < HEADER_SIZE
    ensures var s := ReadHeader(buf, true, pre + rest);
      s.conn == Assembling(buf + Flat([pre[0]])) && s.incoming == pre[1..] + rest
  {
    hide DecodeHeader, ReadPayload, Receive, Flat;
    var size := ADB_MAX_PACKET_SIZE - |buf|;
    assert [pre[0]] + pre[1..] == pre;
    FlatAppend([pre[0]], pre[1..]);
    FlatOne(pre[0]);
    NextItem(pre, rest, size);
    assert buf + [] == buf;
  }

  /** The end of the stream, or an error, closes a connection whose header is not complete. */
  lemma {:induction false} EndInHeader(c: Conn, pre: seq<Recv>, e: Recv, more: seq<Recv>, n: nat)
    requires Between(c) && Steady(pre) && |Buffered(c)| + |Flat(pre)| < HEADER_SIZE && n > |pre| && e in {Eof, Failed}
    ensures Calls(c, pre + [e] + more, n).conn == Closed
    decreases |pre|
  {
    hide DecodeHeader, ReadPayload, Flat, ReadHeader, Steady;
    var rest := [e] + more;
    assert pre + [e] + more == pre + rest;
    var s := Call(c, pre + rest);
    if pre == [] {
      assert pre + rest == rest;
      EndNow(c, e, more);
      Settled(Closed, s.incoming, n - 1);
    } else if c.Assembling? {
      HeaderTakes(c.buf, pre, rest);
      SteadyTail(pre);
      assert pre[1..] + [e] + more == pre[1..] + rest;
      EndInHeader(s.conn, pre[1..], e, more, n - 1);
    } else {
      SteadyTail(pre);
      NextItem(pre, rest, ADB_MAX_PACKET_SIZE);
      assert [pre[0]] + pre[1..] == pre;
      FlatAppend([pre[0]], pre[1..]);
      FlatOne(pre[0]);
      assert pre[1..] + [e] + more == pre[1..] + rest;
      if pre[0] == Again {
        EndInHeader(Waiting, pre[1..], e, more, n - 1);
      } else if |pre| == 1 {
        assert pre[1..] + rest == rest;
        EndNow(Assembling(pre[0].bytes), e, more);
        Settled(Closed, s.incoming, n - 1);
      } else {
        HeaderTakes(pre[0].bytes, pre[1..], rest);
        SteadyTail(pre[1..]);
        assert pre[2..] + [e] + more == pre[2..] + rest;
        EndInHeader(s.conn, pre[2..], e, more, n - 1);
      }
    }
  }

  lemma SteadyTail(pre: seq<Recv>)
    requires Steady(pre) && pre != []
    ensures Steady(pre[1..]) && (pre[0] == Again || (pre[0].Segment? && pre[0].bytes != []))
  {
  }

  lemma EndNow(c: Conn, e: Recv, more: seq<Recv>)
    requires Between(c) && e in {Eof, Failed}
    ensures Call(c, [e] + more).conn == Closed
  {
  }

  function Agains(k: nat): (s: seq<Recv>)
    ensures |s| == k
  {
    if k == 0 then [] else [Again] + Agains(k - 1)
  }

  /** Behind an incomplete payload it closes the connection too, unless AGAIN has taken `last`
      below the buffer before. */
  lemma {:induction false} EndInPayload(h: Header, mem: seq<byte>, k: nat, e: Recv, more: seq<Recv>, n: nat)
    requires |mem| < HEADER_SIZE + h.dlen && |mem| <= ADB_MAX_PACKET_SIZE && n > k && e in {Eof, Failed}
    ensures Calls(Reading(h, mem), Agains(k) + [e] + more, n).conn == if 2 * k > |mem| then Wild else Closed
    decreases k
  {
    var script := Agains(k) + [e] + more;
    var s := Call(Reading(h, mem), script);
    if k == 0 {
      assert script[0] == e;
      Settled(s.conn, s.incoming, n - 1);
    } else {
      assert script[0] == Again && script[1..] == Agains(k - 1) + [e] + more;
      if |mem| < 2 {
        Settled(s.conn, s.incoming, n - 1);
      } else {
        EndInPayload(h, mem[..|mem| - 2], k - 1, e, more, n - 1);
      }
    }
  }

  /** From the wait state: a stream that ends, or fails, before the payload is complete closes
      the connection, unless `k` times AGAIN have taken `last` below the buffer before. */
  lemma EndBeforePayload(pre: seq<Recv>, k: nat, e: Recv, more: seq<Recv>, n: nat)
    requires Completes(pre, 0) && |Flat(pre)| <= ADB_MAX_PACKET_SIZE && n >= |pre| + k && e in {Eof, Failed}
    requires |Flat(pre)| < HEADER_SIZE + DecodeHeader(Flat(pre)[..HEADER_SIZE]).dlen
    ensures Calls(Waiting, pre + Agains(k) + [e] + more, n).conn == if 2 * k > |Flat(pre)| then Wild else Closed
  {
    hide DecodeHeader, Flat, Completes, Calls;
    CompletesLong(pre);
    var all, rest := Flat(pre), Agains(k) + [e] + more;
    assert pre + Agains(k) + [e] + more == pre + rest && Buffered(Waiting) + all == all;
    EntersPayload(Waiting, pre, rest, n);
    var h := DecodeHeader(all[..HEADER_SIZE]);
    var i :| 0 < i <= n && n - i < |pre| &&
      Calls(Waiting, pre + rest, n) == Calls(Reading(h, Cut(all, ADB_MAX_PACKET_SIZE)), Beyond(all, rest), i);
    EndInPayload(h, all, k, e, more, i);
  }

  /** A handler called for an event that is not ready receives nothing: it waits, and in the
      payload state still takes two bytes off the end. */
  lemma UnreadyCall(c: Conn, incoming: seq<Recv>)
    requires (c.Assembling? && |c.buf| < HEADER_SIZE) || (c.Reading? && 2 <= |c.mem| < HEADER_SIZE + c.h.dlen && |c.mem| <= ADB_MAX_PACKET_SIZE)
    ensures CallAt(c, false, incoming) ==
      Step(if c.Assembling? then c else Reading(c.h, c.mem[..|c.mem| - 2]), false, incoming)
  {
  }

  // ------------------------------------------ what a packet's size can be

  ghost predicate Sized(c: Conn) {
    match c
    case Assembling(buf) => |buf| <= ADB_MAX_PACKET_SIZE
    case Reading(_, mem) => |mem| <= ADB_MAX_PACKET_SIZE
    case Parsed(_, payload) => |payload| <= ADB_MAX_PACKET_SIZE - HEADER_SIZE
    case _ => true
  }

  lemma PayloadSized(h: Header, mem: seq<byte>, ready: bool, incoming: seq<Recv>)
    requires |mem| <= ADB_MAX_PACKET_SIZE
    ensures Sized(ReadPayload(h, mem, ready, incoming).conn)
  {
  }

  lemma HeaderSized(buf: seq<byte>, ready: bool, incoming: seq<Recv>)
    requires |buf| <= ADB_MAX_PACKET_SIZE
    ensures Sized(ReadHeader(buf, ready, incoming).conn)
  {
    hide ReadPayload, DecodeHeader;
    if |buf| >= HEADER_SIZE {
      PayloadSized(DecodeHeader(buf[..HEADER_SIZE]), buf, ready, incoming);
    } else {
      var (g, ready', rest) := Pull(ready, incoming, ADB_MAX_PACKET_SIZE - |buf|);
      if g.Data? && |buf + g.bytes| >= HEADER_SIZE {
        PayloadSized(DecodeHeader((buf + g.bytes)[..HEADER_SIZE]), buf + g.bytes, ready', rest);
      }
    }
  }

  lemma {:induction false} CallsSized(c: Conn, incoming: seq<Recv>, n: nat)
    requires Sized(c)
    ensures Sized(Calls(c, incoming, n).conn)
    decreases n
  {
    hide ReadHeader, ReadPayload;
    if n > 0 {
      match c {
        case Waiting =>
          var (g, rest) := Receive(incoming, ADB_MAX_PACKET_SIZE);
          if g.Data? { HeaderSized(g.bytes, true, rest); }
        case Assembling(buf) => HeaderSized(buf, true, incoming);
        case Reading(h, mem) => PayloadSized(h, mem, true, incoming);
        case _ =>
      }
      var s := Call(c, incoming);
      CallsSized(s.conn, s.incoming, n - 1);
    }
  }

  // ----------------------------------------------- exactly when it is right

  function Zeros(n: nat): (z: seq<byte>)
    ensures |z| == n
  {
    seq(n, _ => 0)
  }

  function Marked(x: nat, m: nat): (b: seq<byte>)
    ensures |b| == m
  {
    seq(m, i => if x == 0 && i == 0 then 0 else 1)
  }

  lemma OneSegment(b: seq<byte>)
    requires |b| >= HEADER_SIZE
    ensures Completes([Segment(b)], 0) && Flat([Segment(b)]) == b
  {
    assert [Segment(b)][..0] == [] && [Segment(b)][1..] == [];
    assert b + Flat([]) == b;
  }

  /** Losing the end of what came with the header puts a wrong byte into the payload. */
  lemma WrongByte(head: seq<byte>, x: nat, k: nat, m: nat, size: nat, tail: seq<byte>, dlen: nat)
    requires |head| == HEADER_SIZE && k > 0 && m > 0 && x < dlen && 2 * k <= HEADER_SIZE + x && size <= m
    requires HEADER_SIZE + dlen <= HEADER_SIZE + x - 2 * k + size
    ensures var mem, b := head + Zeros(x), Marked(x, m); var stream := mem + b + tail;
      |stream| >= HEADER_SIZE + dlen &&
      (mem[..|mem| - 2 * k] + b[..size])[HEADER_SIZE..][..dlen] != stream[HEADER_SIZE..HEADER_SIZE + dlen]
  {
    var mem, b := head + Zeros(x), Marked(x, m);
    var stream, less, at := mem + b + tail, mem[..|mem| - 2 * k], if 2 * k < x then x - 2 * k else 0;
    var got := less + b[..size];
    assert got[HEADER_SIZE + at] == b[HEADER_SIZE + at - |less|];
    assert stream[HEADER_SIZE + at] == if at < x then 0 else b[0];
    assert got[HEADER_SIZE..][..dlen][at] != stream[HEADER_SIZE..HEADER_SIZE + dlen][at];
  }

  /** Whatever arrives with the header and after, there are contents that AGAIN misframes. */
  lemma AgainMisframes(head: seq<byte>, x: nat, k: nat, m: nat, more: seq<Recv>)
    requires |head| == HEADER_SIZE && k > 0 && m > 0
    requires x < DecodeHeader(head).dlen <= ADB_MAX_PACKET_SIZE - HEADER_SIZE
    ensures !Framed([Segment(head + Zeros(x))] + AgainThen(k, Marked(x, m)) + more)
  {
    hide DecodeHeader, Flat, Completes, Calls, Zeros, Marked;
    var mem, b, h := head + Zeros(x), Marked(x, m), DecodeHeader(head);
    var pre := [Segment(mem)];
    OneSegment(mem);
    assert mem[..HEADER_SIZE] == head;
    PayloadOfStream(pre, k, b, more);
    FlatScript(pre, k, b, more);
    var c := PayloadEnd(h, mem, k, b);
    if c.Parsed? && |c.payload| >= h.dlen {
      var got := Cut(b, ADB_MAX_PACKET_SIZE - (|mem| - 2 * k));
      assert got == b[..|got|];
      WrongByte(head, x, k, m, |got|, Flat(more), h.dlen);
    }
  }

  /** A payload that is too long for the buffer, or has not all arrived, is not framed. */
  lemma ShortMisframes(head: seq<byte>, x: nat, m: nat, more: seq<Recv>)
    requires |head| == HEADER_SIZE && m > 0 && x + m < DecodeHeader(head).dlen <= ADB_MAX_PACKET_SIZE - HEADER_SIZE
    ensures !Framed([Segment(head + Zeros(x))] + AgainThen(0, Marked(x, m)) + more)
  {
    hide DecodeHeader, Flat, Completes, Calls;
    var mem := head + Zeros(x);
    OneSegment(mem);
    assert mem[..HEADER_SIZE] == head;
    PayloadOfStream([Segment(mem)], 0, Marked(x, m), more);
  }

  lemma {:induction false} LongMisframes(pre: seq<Recv>, k: nat, b: seq<byte>, more: seq<Recv>)
    requires Completes(pre, 0)
    requires DecodeHeader(Flat(pre)[..HEADER_SIZE]).dlen > ADB_MAX_PACKET_SIZE - HEADER_SIZE
    ensures !Framed(pre + AgainThen(k, b) + more)
  {
    hide DecodeHeader, Flat, Calls, Completes;
    CompletesLong(pre);
    var incoming, all := pre + AgainThen(k, b) + more, Flat(pre);
    assert incoming == pre + (AgainThen(k, b) + more) && Buffered(Waiting) + all == all;
    EntersPayload(Waiting, pre, AgainThen(k, b) + more, |incoming|);
    var h := DecodeHeader(all[..HEADER_SIZE]);
    var i :| 0 < i <= |incoming| && Calls(Waiting, pre + (AgainThen(k, b) + more), |incoming|) ==
      Calls(Reading(h, Cut(all, ADB_MAX_PACKET_SIZE)), Beyond(all, AgainThen(k, b) + more), i);
    CallsSized(Waiting, incoming, |incoming|);
    CallsKeepHeader(h, Cut(all, ADB_MAX_PACKET_SIZE), Beyond(all, AgainThen(k, b) + more), i);
  }

  lemma {:induction false} CallsKeepHeader(h: Header, mem: seq<byte>, incoming: seq<Recv>, n: nat)
    ensures var c := Calls(Reading(h, mem), incoming, n).conn; c.Parsed? ==> c.h == h
    decreases n
  {
    if n > 0 {
      var s := Call(Reading(h, mem), incoming);
      if s.conn.Reading? {
        CallsKeepHeader(h, s.conn.mem, s.incoming, n - 1);
      } else {
        Settled(s.conn, s.incoming, n - 1);
      }
    }
  }

  /** Payload framing, for a header followed by `x` payload bytes, fewer than announced,
      however they were cut up, then `k` times AGAIN and a segment of `m` bytes: the packet
      gets the bytes that follow the header in the stream, whatever they are, exactly when
      there was no AGAIN, the segment completed the payload, and the packet fits the buffer. */
  lemma PayloadFraming(head: seq<byte>, x: nat, k: nat, m: nat, more: seq<Recv>)
    requires |head| == HEADER_SIZE && x < DecodeHeader(head).dlen && m > 0
    ensures (forall pre, b | Completes(pre, 0) && Flat(pre)[..HEADER_SIZE] == head && |Flat(pre)| == HEADER_SIZE + x && |b| == m ::
               Framed(pre + AgainThen(k, b) + more))
      <==> k == 0 && x + m >= DecodeHeader(head).dlen && HEADER_SIZE + DecodeHeader(head).dlen <= ADB_MAX_PACKET_SIZE
  {
    hide DecodeHeader, Flat, Steady, Framed;
    var dlen, mem := DecodeHeader(head).dlen, head + Zeros(x);
    OneSegment(mem);
    assert mem[..HEADER_SIZE] == head && |Marked(x, m)| == m;
    if HEADER_SIZE + dlen > ADB_MAX_PACKET_SIZE {
      LongMisframes([Segment(mem)], k, Marked(x, m), more);
    } else if k > 0 {
      AgainMisframes(head, x, k, m, more);
    } else if x + m < dlen {
      ShortMisframes(head, x, m, more);
    } else {
      forall pre, b | Completes(pre, 0) && Flat(pre)[..HEADER_SIZE] == head && |Flat(pre)| == HEADER_SIZE + x && |b| == m
        ensures Framed(pre + AgainThen(k, b) + more)
      {
        PromptPayload(pre, b, more);
      }
    }
  }

  /** A payload that arrived with its header is framed without another read; the packet gets
      exactly the announced bytes when nothing behind them was received. */
  lemma BufferedPayload(pre: seq<Recv>, rest: seq<Recv>)
    requires Completes(pre, 0)
    requires HEADER_SIZE + DecodeHeader(Flat(pre)[..HEADER_SIZE]).dlen <= |Flat(pre)|
    requires HEADER_SIZE + DecodeHeader(Flat(pre)[..HEADER_SIZE]).dlen <= ADB_MAX_PACKET_SIZE
    ensures var c := Calls(Waiting, pre + rest, |pre + rest|).conn; var stream := Flat(pre + rest);
      && Framed(pre + rest) && c.h == DecodeHeader(stream[..HEADER_SIZE])
      && var end := HEADER_SIZE + c.h.dlen;
         c.payload == stream[HEADER_SIZE..end] <==> |Flat(pre)| == end || end == ADB_MAX_PACKET_SIZE
  {
    hide DecodeHeader, Flat, Completes, ReadHeader;
    CompletesLong(pre);
    var all, n := Flat(pre), |pre + rest|;
    assert Buffered(Waiting) + all == all;
    EntersPayload(Waiting, pre, rest, n);
    var h, mem, beyond := DecodeHeader(all[..HEADER_SIZE]), Cut(all, ADB_MAX_PACKET_SIZE), Beyond(all, rest);
    var i :| 0 < i <= n && Calls(Waiting, pre + rest, n) == Calls(Reading(h, mem), beyond, i);
    var p := Parsed(h, mem[HEADER_SIZE..]);
    assert Call(Reading(h, mem), beyond) == Step(p, true, beyond);
    Settled(p, beyond, i - 1);
    FlatAppend(pre, rest);
    assert Calls(Reading(h, mem), beyond, i).conn == p;
    assert (all + Flat(rest))[..HEADER_SIZE] == all[..HEADER_SIZE];
    assert mem[HEADER_SIZE..][..h.dlen] == (all + Flat(rest))[HEADER_SIZE..HEADER_SIZE + h.dlen];
  }

  /** A stream the code gets wrong: a header that announces four bytes, AGAIN, then the four
      bytes.  The packet is handed on with the last two of them only. */
  lemma AgainLosesBytes(head: seq<byte>, a: byte, b: byte, c: byte, d: byte)
    requires |head| == HEADER_SIZE && DecodeHeader(head).dlen == 4
    ensures var incoming := [Segment(head), Again, Segment([a, b, c, d])];
      && Calls(Waiting, incoming, 2).conn == Parsed(DecodeHeader(head), [c, d])
      && Flat(incoming) == head + [a, b, c, d]
  {
    hide DecodeHeader;
    var incoming := [Segment(head), Again, Segment([a, b, c, d])];
    assert head[..HEADER_SIZE] == head;
    FlatOne(incoming[2]);
    assert incoming[1..] == [Again, incoming[2]] && incoming[1..][1..] == [incoming[2]];
    assert Pull(true, incoming[1..], ADB_MAX_PACKET_SIZE - HEADER_SIZE) == (NotReady, false, [incoming[2]]);
    var s := Call(Waiting, incoming);
    assert s.conn == Reading(DecodeHeader(head), head[..HEADER_SIZE - 2]) && s.incoming == [Segment([a, b, c, d])];
    var u := Call(s.conn, s.incoming);
    assert (head[..HEADER_SIZE - 2] + [a, b, c, d])[HEADER_SIZE..] == [c, d];
    assert Calls(Waiting, incoming, 2) == Calls(s.conn, s.incoming, 1) == Calls(u.conn, u.incoming, 0);
  }
}
