/** The read handlers of a packet connection as the program runs them, on the receive
    buffer, the request and the event of one connection.  A call is proved to make the step
    `Turn` of module `AdbPeer`, whatever happens.  When the connection is closed its buffer
    and its request go with the pool they live in, and `data` becomes the link of the free
    list: from then on no handler can reach them. */
module AdbHandlers {
  import opened Buf
  import opened Wire
  import opened Packet
  import opened AdbReader
  import opened AdbPeer
  import E = EventState

  const XDBD_AGAIN := -2

  /** A script stays sound when an effect is added to it before any close. */
  lemma ScriptAppend(handler: E.Handler, ready: bool, es: seq<E.Effect>, e: E.Effect)
    ensures var (h, r) := E.AfterScript(handler, ready, es);
      E.AfterScript(handler, ready, es + [e]) ==
        (if e.SetHandler? then e.handler else h, if e.ReadNotReady? then false else r)
  {
  }

  ghost predicate NoClose(es: seq<E.Effect>) {
    forall i :: 0 <= i < |es| ==> !es[i].CloseConnection?
  }

  lemma OwnAppend(es: seq<E.Effect>, e: E.Effect)
    requires E.OwnScript(es) && E.Writeless(es) && NoClose(es)
    requires !e.HandleWriteEvent? && (e.SetHandler? ==> E.PacketHandler(e.handler))
    ensures E.OwnScript(es + [e]) && E.Writeless(es + [e])
    ensures NoClose(es + [e]) <==> !e.CloseConnection?
    ensures E.Watching(es) && !e.BlockRead? ==> E.Watching(es + [e])
  {
    var all := es + [e];
    assert all[|es|] == e;
    assert forall i :: 0 <= i < |es| ==> all[i] == es[i];
  }

  lemma NoEffects(handler: E.Handler, ready: bool)
    ensures E.OwnScript([]) && E.Writeless([]) && E.Watching([]) && NoClose([]) && E.AfterScript(handler, ready, []) == (handler, ready)
  {
  }

  /** A closing can only be at the end of a script. */
  lemma ClosedLast(es: seq<E.Effect>)
    requires E.OwnScript(es)
    ensures !NoClose(es) <==> es != [] && es[|es| - 1].CloseConnection?
  {
  }

  /** A connection's `data`: its request while packets are read, the link of the free list
      once the connection has been given back. */
  datatype Data = Unset | Reads(request: Request) | FreeLink

  class Connection {
    var handler: E.Handler       // of the read event
    var ready: bool              // of the read event
    var buffer: Buf?
    var data: Data
    var incoming: seq<Recv>      // what is left to be received
    var open: bool               // not `destroyed`
    var lost: bool               // the code's behaviour is undefined from here on
    ghost var closes: nat        // how often the socket, and each pool, was closed
    ghost var poolsFreed: nat
    ghost var tempsFreed: nat
    ghost var effects: seq<E.Effect>                  // of the current handler call
    ghost var entry: (E.Handler, bool)                // `handler` and `ready` when it began
    ghost var packets: seq<(Header, seq<byte>)>       // handed to the packet processor
    ghost var sent: seq<seq<byte>>                    // handed to send()
    ghost var repr: set<object>                       // what the handlers may change

    ghost function Current(): set<Request>
      reads this`data
    {
      if data.Reads? then {data.request} else {}
    }

    /** The buffer's bytes up to `last`. */
    ghost function Taken(): seq<byte>
      reads this`buffer, buffer, if buffer == null then {} else {buffer.mem}
      requires buffer != null && buffer.last <= buffer.mem.Length
    {
      buffer.mem[..buffer.last]
    }

    ghost predicate BufferOk()
      reads this`buffer, buffer
    {
      buffer != null ==> buffer.mem.Length == ADB_MAX_PACKET_SIZE && buffer.last <= ADB_MAX_PACKET_SIZE
    }

    ghost predicate Inside()
      reads this, repr
    {
      && this in repr
      && (buffer != null ==> buffer in repr && buffer.mem in repr)
      && (data.Reads? ==>
            data.request in repr && data.request.payload in repr && data.request.payload.mem in repr)
    }

    /** A request being received: its packet is still empty and nothing was answered. */
    ghost predicate RequestOk()
      reads this, repr
    {
      && Inside() && buffer != null && data.Reads?
      && var r, payload := data.request, data.request.payload;
      && r.out == null && r.Valid() && r.replies == [] && !r.torn && !r.overrun
      && payload != buffer && payload.mem != buffer.mem
      && payload.Valid() && payload.Contents() == [] && payload.pos == 0 && payload.mem.Length == ADB_MAX_PACKET_SIZE
    }

    /** Socket and pools are closed once, and what lived in them is out of reach. */
    ghost predicate Counted()
      reads this`open, this`closes, this`poolsFreed, this`tempsFreed, this`data, this`buffer
    {
      && closes == poolsFreed == tempsFreed == (if open then 0 else 1)
      && (!open ==> data == FreeLink && buffer == null)
      && (open ==> data != FreeLink)
    }

    /** What the current handler call has done so far is a script whose only close is at
        its end. */
    ghost predicate Tidy()
      reads this`handler, this`ready, this`effects, this`entry
      reads this`open, this`closes, this`poolsFreed, this`tempsFreed, this`data, this`buffer
    {
      && Counted()
      && E.OwnScript(effects) && E.Writeless(effects) && (entry.0 != E.BlockReading ==> E.Watching(effects))
      && (open <==> NoClose(effects))
      && (handler, ready) == E.AfterScript(entry.0, entry.1, effects)
    }

    ghost predicate Valid()
      reads this, repr
    {
      && Inside() && BufferOk() && Counted()
      && (open && !lost ==>
            && E.PacketHandler(handler)
            && (handler == E.ProcessHeader ==> RequestOk() && buffer.pos == 0)
            && (handler == E.ProcessPayload ==> RequestOk() && buffer.pos == HEADER_SIZE))
    }

    ghost function Where(): Conn
      requires Valid()
      reads this, repr
    {
      if !open then Closed else if lost then Wild else
      match handler
      case WaitPacket => Waiting
      case ProcessHeader => Assembling(Taken())
      case ProcessPayload => Reading(data.request.h, Taken())
      case _ => Blocked
    }

    /** The connection as a value. */
    ghost function State(): Peer
      requires Valid()
      reads this, repr
    {
      Peer(Where(), ready, incoming, packets, sent, buffer != null)
    }

    /** The last thing done was to hand the read event back to the event loop. */
    ghost predicate HandedBack()
      reads this`effects
    {
      effects != [] && effects[|effects| - 1] == E.HandleReadEvent(false)
    }

    ghost method Record(e: E.Effect)
      requires Tidy() && open && !e.CloseConnection? && !e.SetHandler? && e != E.ReadNotReady && e != E.HandleWriteEvent
      requires e == E.BlockRead ==> entry.0 == E.BlockReading
      modifies this`effects
      ensures Tidy() && effects == old(effects) + [e]
    {
      hide E.AfterScript, E.OwnScript, E.Writeless, E.Watching, NoClose;
      OwnAppend(effects, e);
      ScriptAppend(entry.0, entry.1, effects, e);
      effects := effects + [e];
    }

    /** The event is marked not ready. */
    method ClearReady()
      requires Tidy() && open
      modifies this`ready, this`effects
      ensures Tidy() && !ready
    {
      hide E.AfterScript, E.OwnScript, E.Writeless, E.Watching, NoClose;
      OwnAppend(effects, E.ReadNotReady);
      ScriptAppend(entry.0, entry.1, effects, E.ReadNotReady);
      ready := false;
      effects := effects + [E.ReadNotReady];
    }

    /** xdbd_adb_close_connection: the socket once, then each pool once, with the buffer and
        the request that live in the first; `data` is the free list's from then on. */
    method CloseConnection()
      requires Tidy() && open
      modifies this`open, this`closes, this`poolsFreed, this`tempsFreed, this`effects, this`data, this`buffer, Current()`freed
      ensures Tidy() && !open && data == FreeLink && buffer == null
      ensures effects == old(effects) + [E.CloseConnection] && closes == old(closes) + 1
      ensures old(data.Reads?) ==> old(data).request.freed
    {
      hide E.AfterScript, E.OwnScript, E.Writeless, E.Watching, NoClose;
      OwnAppend(effects, E.CloseConnection);
      ScriptAppend(entry.0, entry.1, effects, E.CloseConnection);
      if data.Reads? {
        data.request.freed := true;
      }
      open, data, buffer := false, FreeLink, null;
      effects := effects + [E.CloseConnection];
      closes := closes + 1;
      poolsFreed := poolsFreed + 1;
      tempsFreed := tempsFreed + 1;
    }

    method SetHandler(handler: E.Handler)
      requires Tidy() && open && E.PacketHandler(handler)
      modifies this`handler, this`effects
      ensures Tidy() && this.handler == handler && effects == old(effects) + [E.SetHandler(handler)]
    {
      hide E.AfterScript, E.OwnScript, E.Writeless, E.Watching, NoClose;
      OwnAppend(effects, E.SetHandler(handler));
      ScriptAppend(entry.0, entry.1, effects, E.SetHandler(handler));
      this.handler := handler;
      effects := effects + [E.SetHandler(handler)];
    }

    /** The connection's recv into the room behind `last`. */
    method Recv(b: Buf) returns (n: int)
      requires Tidy() && open && b.last <= b.mem.Length
      modifies this`incoming, this`ready, this`effects, b.mem
      ensures Tidy()
      ensures var (g, rest) := Receive(old(incoming), b.mem.Length - b.last);
        && incoming == rest
        && ready == (g.Data? && old(ready))
        && match g
           case Data(d) => 0 < |d| <= b.mem.Length - b.last && n == |d| && b.mem[..b.last + n] == old(b.mem[..b.last]) + d
           case NotReady => n == XDBD_AGAIN && unchanged(b.mem)
           case Closing => (n == 0 || n == XDBD_ERR) && unchanged(b.mem)
    {
      var (g, rest) := Receive(incoming, b.mem.Length - b.last);
      var failed := incoming != [] && incoming[0] == Failed;
      incoming := rest;
      match g {
        case Data(d) =>
          forall i | 0 <= i < |d| {
            b.mem[b.last + i] := d[i];
          }
          n := |d|;
        case NotReady =>
          ClearReady();
          n := XDBD_AGAIN;
        case Closing =>
          ClearReady();
          n := if failed then XDBD_ERR else 0;
      }
    }

    /** Nothing but the buffer's content has changed, unless the connection was closed. */
    twostate predicate Kept()
      reads this, Current()
    {
      open ==> data == old(data) && buffer == old(buffer) && (data.Reads? ==> data.request.freed == old(data.request.freed))
    }

    /** Reads once into the receive buffer and moves `last`; on AGAIN the event is handed
        back, at the end of the stream or on an error the connection is closed. */
    method Fill() returns (n: int)
      requires Tidy() && open && buffer != null && buffer.last <= buffer.mem.Length
      modifies this`incoming, this`ready, this`effects, this`open, this`closes, this`poolsFreed, this`tempsFreed
      modifies this`data, this`buffer, Current()`freed, buffer.mem, buffer`last
      ensures Tidy() && Kept()
      ensures var (g, ready', rest) := Pull(old(ready), old(incoming), old(buffer.mem.Length - buffer.last));
        && incoming == rest && ready == ready'
        && match g
           case Data(d) => open && n == |d| > 0 && buffer.last <= buffer.mem.Length && Taken() == old(Taken()) + d
           case NotReady => open && n == XDBD_AGAIN && buffer.last <= buffer.mem.Length && Taken() == old(Taken())
           case Closing => !open && n == XDBD_ERR
      ensures n == XDBD_AGAIN ==> HandedBack()
    {
      hide Receive, E.AfterScript, E.OwnScript, E.Writeless, E.Watching, NoClose;
      if ready {
        n := Recv(buffer);
      } else {
        n := XDBD_AGAIN;
      }
      if n == XDBD_AGAIN {
        Record(E.HandleReadEvent(false));  // xdbd_handle_read_event, which does not fail
        return XDBD_AGAIN;
      }
      if n == 0 || n == XDBD_ERR {
        CloseConnection();
        return XDBD_ERR;
      }
      buffer.last := buffer.last + n;
    }

    /** xdbd_adb_read_adb_payload.  `last` may have fallen below the payload's start; it is
        lost when the code -2 takes it below the buffer. */
    method ReadPayloadBytes() returns (n: int)
      requires Tidy() && open && !lost && data.Reads? && buffer != null && buffer.pos == HEADER_SIZE
      requires buffer.last <= buffer.mem.Length == ADB_MAX_PACKET_SIZE
      modifies this`incoming, this`ready, this`effects, this`open, this`closes, this`poolsFreed, this`tempsFreed
      modifies this`data, this`buffer, this`lost, Current()`freed, buffer.mem, buffer`last
      ensures Tidy() && Counted() && Kept() && BufferOk()
      ensures n == XDBD_AGAIN ==> HandedBack()
      ensures var s := ReadPayload(old(data.request.h), old(Taken()), old(ready), old(incoming)); var h := old(data.request.h);
        && incoming == s.incoming && ready == s.ready
        && if n == XDBD_AGAIN then open && s.conn == if lost then Wild else Reading(h, Taken())
           else if n == XDBD_ERR then !open && !lost && s.conn == Closed
           else open && !lost && n >= 0 && s.conn == if |Taken()| < HEADER_SIZE then Wild else Parsed(h, Taken()[HEADER_SIZE..])
    {
      hide Receive, E.AfterScript, E.OwnScript, E.Writeless, E.Watching, NoClose;
      var size := buffer.last - buffer.pos;
      if size >= data.request.h.dlen {
        return size;
      }
      ghost var mem := Taken();
      n := Fill();
      if n == XDBD_AGAIN {
        assert Taken() == mem && buffer.last == |mem|;
        if buffer.last < 2 {
          lost := true;
        } else {
          buffer.last := buffer.last - 2;  // the code -2 is added to `last`
        }
      }
    }

    /** xdbd_adb_read_adb_header */
    method ReadHeaderBytes() returns (n: int)
      requires Tidy() && open && buffer != null && buffer.pos == 0 && buffer.last <= buffer.mem.Length == ADB_MAX_PACKET_SIZE
      modifies this`incoming, this`ready, this`effects, this`open, this`closes, this`poolsFreed, this`tempsFreed
      modifies this`data, this`buffer, Current()`freed, buffer.mem, buffer`last
      ensures Tidy() && Counted() && Kept() && BufferOk()
      ensures open <==> n != XDBD_ERR
      ensures n == XDBD_AGAIN ==> HandedBack()
      ensures ReadHeader(old(Taken()), old(ready), old(incoming)) ==
        if n == XDBD_AGAIN then Step(Assembling(Taken()), ready, incoming)
        else if n == XDBD_ERR then Step(Closed, ready, incoming)
        else ParseHeader(Taken(), ready, incoming)
    {
      hide Receive, ParseHeader, E.AfterScript, E.OwnScript, E.Writeless, E.Watching, NoClose;
      var size := buffer.last - buffer.pos;
      if size >= HEADER_SIZE {
        return size;
      }
      n := Fill();
    }

    /** xdbd_adb_parse_adb_payload: everything buffered goes to the packet, `dlen` bytes
        are counted off. */
    method ParsePayload()
      requires RequestOk() && buffer.Valid() && buffer.mem.Length == ADB_MAX_PACKET_SIZE
      modifies buffer`pos, data.request.payload, data.request.payload.mem
      ensures data.request.payload.Valid() && data.request.payload.Contents() == old(buffer.Contents())
      ensures data.request.payload.mem == old(data.request.payload.mem)
      ensures buffer.pos == old(buffer.pos) + data.request.h.dlen && buffer.last == old(buffer.last) && buffer.mem == old(buffer.mem)
    {
      var _ := data.request.payload.AppendBuf(buffer, false);
      buffer.pos := buffer.pos + data.request.h.dlen;
    }

    /** Calls the handler found for a packet whose check word is right; that of a CLSE closes
        the connection. */
    method CallHandler(k: Option<Kind>, t: Texts, a: Allocs) returns (rc: int)
      requires Tidy() && open && data.Reads? && data.request.Valid() && !data.request.overrun && data.request.out != null
      requires TextsOk(t) && MagicOk(data.request.h) && k == Lookup(data.request.h.pcmd, 0)
      modifies this`open, this`closes, this`poolsFreed, this`tempsFreed, this`effects, this`data, this`buffer
      modifies data.request`replies, data.request`torn, data.request`overrun, data.request`freed, data.request.out, data.request.out.mem
      ensures Tidy() && (open <==> k != Some(Close))
      ensures if open then data == old(data) && buffer == old(buffer) && effects == old(effects)
              else rc == XDBD_ERR && effects == old(effects) + [E.CloseConnection]
      ensures var r := old(data.request);
        open ==>
          && r.Valid() && (r.out.mem == old(r.out.mem) || fresh(r.out.mem))
          && rc == (if Reply(r.h, t).Some? && a.packet && a.payload then XDBD_OK else XDBD_ERR)
          && (if rc == XDBD_OK then r.Replied(Reply(r.h, t).value, a)
              else !r.overrun && OutputOf(r.out) == old(OutputOf(r.out)) && r.replies == old(r.replies) && r.torn == old(r.torn))
    {
      hide Lookup, MagicOk, Reply, Emitted, Whole, Overran, Stream, WellFormed, Request.Replied, E.AfterScript, E.OwnScript, E.Writeless, E.Watching, NoClose;
      if k == Some(Close) {
        CloseConnection();
        rc := XDBD_ERR;
      } else {
        rc := data.request.Answer(k, t, a);
      }
    }

    /** xdbd_process_packet.  The output becomes exactly what `Process` says; the connection
        is closed if and only if the packet is a CLSE with the right check word. */
    method ProcessPacket(t: Texts, a: Allocs) returns (rc: int)
      requires Tidy() && open && data.Reads? && data.request.Valid() && !data.request.overrun && TextsOk(t)
      modifies this`open, this`closes, this`poolsFreed, this`tempsFreed, this`effects, this`data, this`buffer
      modifies data.request`out, data.request`replies, data.request`torn, data.request`overrun, data.request`freed
      modifies if data.request.out == null then {} else {data.request.out, data.request.out.mem}
      ensures Tidy() && (!open <==> EndsConnection(old(data.request.Out()), old(data.request.h), a))
      ensures if open then data == old(data) && buffer == old(buffer) && effects == old(effects)
              else rc == XDBD_ERR && effects == old(effects) + [E.CloseConnection]
      ensures var r, o := old(data.request), old(data.request.Out());
        open ==>
          && r.Valid()
          && (r.out == old(r.out) || fresh(r.out)) && (r.out != null ==> fresh(r.out.mem) || (old(r.out) != null && r.out.mem == old(r.out.mem)))
          && rc == (if Answered(o, r.h, t, a) then XDBD_OK else XDBD_ERR)
          && var base := if o.None? then NEW_OUTPUT else o.value;
             && r.overrun == (rc == XDBD_OK && Overran(base, Reply(r.h, t).value, a))
             && (!r.overrun ==>
                   && r.Out() == Process(o, r.h, t, a)
                   && var whole := rc == XDBD_OK && Whole(base, Reply(r.h, t).value, a);
                      && r.torn == (old(r.torn) || (rc == XDBD_OK && !whole))
                      && r.replies == if whole then old(r.replies) + [Reply(r.h, t).value] else old(r.replies))
    {
      hide Lookup, Filled, Emitted, Whole, Overran, FirstEntry, Reply, E.AfterScript, E.OwnScript, E.Writeless, E.Watching, NoClose;
      if data.request.h.magic != Complement(data.request.h.pcmd) {
        return XDBD_ERR;
      }
      data.request.OpenOutput(a);
      if data.request.out == null {
        return XDBD_ERR;
      }
      var k := data.request.FindHandler(data.request.h.pcmd);
      LookupIsFirst(data.request.h.pcmd, 0);
      OneFirstEntry(data.request.h.pcmd, k, Lookup(data.request.h.pcmd, 0));
      rc := CallHandler(k, t, a);
    }

    /** Any run of packets on one request, whatever the pool serves: the output is what `Run`
        says, and the run ends early exactly at a packet that closes the connection or makes
        an append overrun the output's store. */
    method ServeAll(items: seq<(Header, Allocs)>, t: Texts)
      requires Tidy() && open && data.Reads? && data.request.Valid() && data.request.out == null && TextsOk(t)
      requires !data.request.overrun
      modifies this`open, this`closes, this`poolsFreed, this`tempsFreed, this`effects, this`data, this`buffer, Current()
      ensures Tidy()
      ensures open && !old(data.request).overrun <==>
        forall i :: 0 <= i < |items| ==> !EndsConnection(Run(items[..i], t), items[i].0, items[i].1) && !OverrunsAt(items, t, i)
      ensures open && !old(data.request).overrun ==>
        data == old(data) && data.request.Valid() && data.request.Out() == Run(items, t)
    {
      hide Process, EndsConnection, Tidy, Run, Answered, Overran, Whole, Reply, TextsOk, Stream, Emitted, MagicOk, WellFormed;
      var i := 0;
      RunNone(items[..0], t);
      assert items[..|items|] == items;
      while i < |items|
        invariant 0 <= i <= |items| && Tidy() && open && data == old(data) && data.request.Valid() && !data.request.overrun
        invariant data.request.out != null ==> fresh(data.request.out) && fresh(data.request.out.mem)
        invariant data.request.Out() == Run(items[..i], t)
        invariant forall j :: 0 <= j < i ==>
          !EndsConnection(Run(items[..j], t), items[j].0, items[j].1) && !OverrunsAt(items, t, j)
      {
        RunStep(items, t, i);
        data.request.h := items[i].0;
        var r := data.request;
        var _ := ProcessPacket(t, items[i].1);
        if !open || r.overrun {
          return;
        }
        i := i + 1;
      }
    }

    /** Hands the output to send(), whose result is only logged. */
    method Send(out: Buf, whole: bool)
      requires Tidy() && open && out.Valid()
      modifies this`sent, this`effects
      ensures Tidy() && sent == old(sent) + [out.Contents()]
      ensures effects == old(effects) + if whole then [] else [E.WriteNotReady]
    {
      hide E.AfterScript, E.OwnScript, E.Writeless, E.Watching, NoClose;
      sent := sent + [out.Contents()];
      if !whole {
        Record(E.WriteNotReady);
      }
    }

    /** What the connection is once a packet with header `h` has been processed. */
    twostate predicate Finished(h: Header, env: Env)
      requires TextsOk(env.texts)
      reads this
    {
      match Next(h, env.texts, env.allocs)
      case Waits =>
        && open && handler == E.WaitPacket
        && sent == old(sent) + [Emitted(NEW_OUTPUT, Reply(h, env.texts).value, env.allocs).bytes]
      case Blocks => open && handler == E.BlockReading && sent == old(sent)
      case Closes => !open && sent == old(sent)
    }

    /** The part of the payload handler that follows a parse: the event is blocked while
        the packet is processed; an answered packet is sent its reply and puts the connection
        back to waiting, a refused one leaves it blocked, and a CLSE closes it. */
    method FinishPacket(env: Env)
      requires Tidy() && open && data.Reads? && TextsOk(env.texts)
      requires var r := data.request; r.Valid() && !r.overrun && r.out == null && r.payload.Valid()
      modifies this`handler, this`effects, this`open, this`closes, this`poolsFreed, this`tempsFreed, this`packets, this`sent
      modifies this`data, this`buffer
      modifies data.request`out, data.request`replies, data.request`torn, data.request`overrun, data.request`freed
      ensures Tidy() && Finished(old(data.request.h), env)
      ensures open ==> data == old(data) && buffer == old(buffer)
      ensures packets == old(packets) + [(old(data.request.h), old(data.request.payload.Contents()))]
    {
      hide Reply, Lookup, Filled, Emitted, MagicOk, Stream, Whole, Overran, E.AfterScript, E.OwnScript, E.Writeless, E.Watching, NoClose, TextsOk;
      FirstReplySent(data.request.h, env.texts, env.allocs);
      packets := packets + [(data.request.h, data.request.payload.Contents())];
      SetHandler(E.BlockReading);
      var rc := ProcessPacket(env.texts, env.allocs);
      if rc == XDBD_ERR {
        return;
      }
      var out := data.request.out;
      if out.last - out.pos != 0 {
        Send(out, env.sent);
      }
      SetHandler(E.WaitPacket);
    }

    /** xdbd_adb_process_adb_payload */
    method ProcessPayload(env: Env)
      requires Valid() && Tidy() && open && !lost && handler == E.ProcessPayload
      requires TextsOk(env.texts)
      modifies repr
      ensures Valid() && Tidy() && entry == old(entry) && fresh(repr - old(repr))
      ensures State() == Turn(old(State()), env)
    {
      hide E.AfterScript, E.OwnScript, E.Writeless, E.Watching, NoClose, ReadPayload, Pull, Receive, TextsOk, Stream, Ended;
      if env.timedOut {
        CloseConnection();
        return;
      }
      PayloadLoop(env);
    }

    /** The handler's loop, which is run through once. */
    method PayloadLoop(env: Env)
      requires Valid() && Tidy() && open && !lost && handler == E.ProcessPayload && !env.timedOut
      requires TextsOk(env.texts)
      modifies repr
      ensures Valid() && Tidy() && entry == old(entry) && fresh(repr - old(repr))
      ensures State() == Turn(old(State()), env)
    {
      hide Tidy, Request.Valid, Reply, Next, Emitted, ReadPayload, Pull, Receive, TextsOk, Stream, Ended;
      ghost var s := ReadPayload(data.request.h, Taken(), ready, incoming);
      if !s.conn.Parsed? { EndedElse(packets, sent, s, env); }
      var go := AwaitPayload(s);
      if go {
        Deliver(env);
      }
    }

    /** The reading half of the loop; `go` says that what is there is to be parsed. */
    method AwaitPayload(ghost s: Step) returns (go: bool)
      requires Valid() && Tidy() && open && !lost && handler == E.ProcessPayload
      requires s == ReadPayload(data.request.h, Taken(), ready, incoming)
      modifies repr
      ensures Valid() && Tidy() && entry == old(entry) && repr == old(repr) && packets == old(packets) && sent == old(sent)
      ensures ready == s.ready && incoming == s.incoming && (buffer == null <==> s.conn == Closed)
      ensures if go then
          && open && !lost && handler == E.ProcessPayload
          && s.conn == if |Taken()| < HEADER_SIZE then Wild else Parsed(data.request.h, Taken()[HEADER_SIZE..])
        else !s.conn.Parsed? && Where() == s.conn
    {
      hide Tidy, Request.Valid, ReadPayload, Pull, Receive, Stream;
      var n := ReadPayloadBytes();
      go := n != XDBD_AGAIN && n != XDBD_ERR;
    }

    /** Hands what is buffered behind the header to the packet processor. */
    method Deliver(env: Env)
      requires Valid() && Tidy() && open && !lost && handler == E.ProcessPayload && TextsOk(env.texts)
      modifies repr
      ensures Valid() && Tidy() && entry == old(entry) && fresh(repr - old(repr))
      ensures var mem := old(Taken());
        State() == Ended(old(packets), old(sent), Step(if |mem| < HEADER_SIZE then Wild else Parsed(old(data.request.h), mem[HEADER_SIZE..]), old(ready), old(incoming)), env)
      ensures open && !lost ==> (buffer != null && (buffer.pos <= buffer.last <==> old(|Taken()| >= HEADER_SIZE + data.request.h.dlen)))
    {
      hide E.AfterScript, E.OwnScript, E.Writeless, E.Watching, NoClose, Next, TextsOk, Emitted, Reply, Stream;
      if buffer.last < buffer.pos {
        lost := true;  // a negative number of bytes would be appended
        return;
      }
      assert buffer.Contents() == Taken()[HEADER_SIZE..];
      ParsePayload();
      FinishPacket(env);
    }

    /** xdbd_adb_parse_adb_header, once 24 bytes are there. */
    method ParseHeaderBytes() returns (done: bool)
      requires data.Reads? && buffer != null && buffer.pos == 0 && buffer.last <= buffer.mem.Length
      modifies data.request`h, buffer`pos
      ensures done <==> |Taken()| >= HEADER_SIZE
      ensures if done then buffer.pos == HEADER_SIZE && data.request.h == DecodeHeader(Taken()[..HEADER_SIZE])
              else buffer.pos == 0 && data.request.h == old(data.request.h)
    {
      if buffer.last - buffer.pos < HEADER_SIZE {
        return false;
      }
      assert Taken()[..HEADER_SIZE] == buffer.mem[..HEADER_SIZE];
      data.request.h := DecodeHeader(buffer.mem[..HEADER_SIZE]);
      buffer.pos := buffer.pos + HEADER_SIZE;
      done := true;
    }

    /** xdbd_adb_process_adb_header */
    method ProcessHeader(env: Env)
      requires Valid() && Tidy() && open && !lost && handler == E.ProcessHeader
      requires TextsOk(env.texts)
      modifies repr
      ensures Valid() && Tidy() && entry == old(entry) && fresh(repr - old(repr))
      ensures State() == Turn(old(State()), env)
    {
      hide E.AfterScript, E.OwnScript, E.Writeless, E.Watching, NoClose, DecodeHeader, ReadPayload, ReadHeader, ParseHeader, Pull, Receive, TextsOk, Stream, Ended;
      if env.timedOut {
        CloseConnection();
        return;
      }
      HeaderLoop(env);
    }

    /** The handler's loop, which is run through once. */
    method HeaderLoop(env: Env)
      requires Valid() && Tidy() && open && !lost && handler == E.ProcessHeader && !env.timedOut
      requires TextsOk(env.texts)
      modifies repr
      ensures Valid() && Tidy() && entry == old(entry) && fresh(repr - old(repr))
      ensures State() == Turn(old(State()), env)
    {
      hide Tidy, Request.Valid, Reply, Next, Emitted, DecodeHeader, ReadPayload, ReadHeader, ParseHeader, Pull, Receive, TextsOk, Stream, Ended;
      ghost var s := ReadHeader(Taken(), ready, incoming);
      if !s.conn.Parsed? { EndedElse(packets, sent, s, env); }
      var go := AwaitHeader(s);
      if go {
        EnterPayload(env);
      }
    }

    /** The reading half of the loop; `go` says that what is there is to be parsed. */
    method AwaitHeader(ghost s: Step) returns (go: bool)
      requires Valid() && Tidy() && open && !lost && handler == E.ProcessHeader
      requires s == ReadHeader(Taken(), ready, incoming)
      modifies repr
      ensures Valid() && Tidy() && entry == old(entry) && repr == old(repr) && packets == old(packets) && sent == old(sent)
      ensures if go then open && !lost && handler == E.ProcessHeader && s == ParseHeader(Taken(), ready, incoming)
        else s == Step(Where(), ready, incoming) && !s.conn.Parsed? && (buffer == null <==> s.conn == Closed)
    {
      hide Tidy, Request.Valid, DecodeHeader, ReadPayload, ReadHeader, ParseHeader, Pull, Receive, Stream;
      var n := ReadHeaderBytes();
      go := n != XDBD_AGAIN && n != XDBD_ERR;
    }

    /** Parses the header if it is there, and goes straight on to the payload. */
    method EnterPayload(env: Env)
      requires Valid() && Tidy() && open && !lost && handler == E.ProcessHeader && !env.timedOut
      requires TextsOk(env.texts)
      modifies repr
      ensures Valid() && Tidy() && entry == old(entry) && fresh(repr - old(repr))
      ensures State() == Ended(old(packets), old(sent), ParseHeader(old(Taken()), old(ready), old(incoming)), env)
    {
      hide E.AfterScript, E.OwnScript, E.Writeless, E.Watching, NoClose, DecodeHeader, ReadPayload, TextsOk, Stream, Ended;
      if |Taken()| < HEADER_SIZE { EndedElse(packets, sent, ParseHeader(Taken(), ready, incoming), env); }
      var done := ParseHeaderBytes();
      if done {
        SetHandler(E.ProcessPayload);
        ProcessPayload(env);
      }
    }

    /** xdbd_adb_wait_apacket_handler: the buffer is made once and reset for each packet,
        and each packet gets a request of its own. */
    method WaitHandler(env: Env)
      requires Valid() && Tidy() && open && !lost && handler == E.WaitPacket && TextsOk(env.texts)
      modifies repr
      ensures Valid() && Tidy() && entry == old(entry) && fresh(repr - old(repr))
      ensures State() == Turn(old(State()), env)
    {
      hide Tidy, Request.Valid, Reply, Next, Emitted, ReadHeader, TextsOk, Receive, Stream, Ended, Turn;
      if buffer == null && !env.buffer { NoBuffer(State(), env); } else { TurnWaiting(State(), env); }
      var n := FirstRead(env);
      if n <= 0 {
        NothingRead(n);
        return;
      }
      buffer.last := buffer.last + n;
      StartRequest(env);
    }

    /** AGAIN hands the event back; an error or the end of the stream closes the connection. */
    method NothingRead(n: int)
      requires Valid() && Tidy() && open && !lost && handler == E.WaitPacket && n <= 0
      modifies repr
      ensures Valid() && Tidy() && entry == old(entry) && repr == old(repr)
      ensures State() == if n == XDBD_AGAIN then old(State()) else Shut(old(State()))
      ensures n == XDBD_AGAIN ==> HandedBack()
    {
      hide E.AfterScript, E.OwnScript, E.Writeless, E.Watching, NoClose;
      if n == XDBD_AGAIN {
        Record(E.HandleReadEvent(false));
      } else {
        CloseConnection();
      }
    }

    /** Receives the first bytes of a packet at the start of the buffer. */
    method FirstRead(env: Env) returns (n: int)
      requires BufferOk() && Inside() && Tidy() && open
      modifies this`repr, this`buffer, this`incoming, this`ready, this`effects, buffer, if buffer == null then {} else {buffer.mem}
      ensures BufferOk() && Inside() && Tidy() && Counted() && fresh(repr - old(repr)) && old(repr) <= repr
      ensures buffer == old(buffer) || (old(buffer) == null && fresh(buffer) && fresh(buffer.mem))
      ensures old(buffer) != null ==> buffer != null && buffer.mem == old(buffer.mem)
      ensures buffer == null <==> old(buffer) == null && !env.buffer
      ensures buffer == null ==> n == XDBD_ERR && incoming == old(incoming) && ready == old(ready)
      ensures buffer != null ==> buffer.pos == buffer.last == 0
      ensures buffer != null ==>
        var (g, rest) := Receive(old(incoming), ADB_MAX_PACKET_SIZE);
        && incoming == rest && ready == (g.Data? && old(ready))
        && match g
           case Data(d) => 0 < n == |d| <= ADB_MAX_PACKET_SIZE && buffer.mem[..n] == d
           case NotReady => n == XDBD_AGAIN
           case Closing => n == 0 || n == XDBD_ERR
    {
      hide Receive;
      PrepareBuffer(env);
      if buffer == null {
        return XDBD_ERR;
      }
      n := Recv(buffer);
      assert buffer.mem[..0] == [];
    }

    /** The receive buffer, made on first use, emptied. */
    method PrepareBuffer(env: Env)
      requires BufferOk() && Inside()
      modifies this`repr, this`buffer, buffer
      ensures Inside() && fresh(repr - old(repr)) && old(repr) <= repr
      ensures BufferOk() && (buffer == old(buffer) || (old(buffer) == null && fresh(buffer) && fresh(buffer.mem)))
      ensures buffer == null <==> old(buffer) == null && !env.buffer
      ensures buffer != null ==> buffer.pos == buffer.last == 0
      ensures old(buffer) != null ==> buffer == old(buffer) && buffer.mem == old(buffer.mem)
    {
      if buffer == null {
        buffer := CreateBuf(ADB_MAX_PACKET_SIZE, env.buffer);
        if buffer == null {
          return;
        }
        repr := repr + {buffer, buffer.mem};
      }
      buffer.Reset();
    }

    /** The end of the wait handler, with the first bytes of a packet in the buffer. */
    method StartRequest(env: Env)
      requires Valid() && Tidy() && open && !lost && handler == E.WaitPacket
      requires buffer != null && buffer.pos == 0 && TextsOk(env.texts)
      modifies repr
      ensures Valid() && Tidy() && entry == old(entry) && fresh(repr - old(repr))
      ensures if env.request && !env.timedOut then State() == Ended(old(packets), old(sent), ReadHeader(old(Taken()), old(ready), old(incoming)), env)
              else State() == Shut(old(State()))
    {
      hide E.AfterScript, E.OwnScript, E.Writeless, E.Watching, NoClose, ReadHeader, TextsOk, Stream, Ended;
      if !env.request {
        CloseConnection();
        return;
      }
      CreateRequest();
      SetHandler(E.ProcessHeader);
      ProcessHeader(env);
    }

    /** xdbd_adb_create_request, when the pool serves it. */
    method CreateRequest()
      requires Tidy() && open && buffer != null
      requires Inside()
      modifies this`data, this`repr
      ensures Tidy() && RequestOk() && fresh(repr - old(repr)) && old(repr) <= repr
    {
      var r := new Request();
      data := Reads(r);
      repr := repr + {r, r.payload, r.payload.mem};
    }

    /** xdbd_adb_block_reading */
    method BlockReading()
      requires Valid() && Tidy() && open && handler == entry.0 == E.BlockReading
      modifies this`effects
      ensures Valid() && Tidy() && effects == old(effects) + [E.BlockRead] && State() == old(State())
    {
      hide E.AfterScript, E.OwnScript, E.Writeless, E.Watching, NoClose;
      Record(E.BlockRead);
    }

    /** One call of the read handler of an open connection: the step `Turn`.  Whatever recv()
        returns, the timer says and the packet is, the connection's socket and each of its
        two pools are closed at most once, the closing is the last thing done, and the script
        that reaches the event loop is the connection's own. */
    method HandleRead(env: Env)
      requires Valid() && open && !lost && TextsOk(env.texts)
      modifies repr
      ensures Valid() && State() == Turn(old(State()), env)
      ensures E.OwnScript(effects) && E.Writeless(effects)
      ensures if old(handler) == E.BlockReading then effects == [E.BlockRead] else E.Watching(effects)
      ensures closes == poolsFreed == tempsFreed == if open then 0 else 1
      ensures !open <==> effects != [] && effects[|effects| - 1].CloseConnection?
      ensures !open ==> data == FreeLink && buffer == null
      ensures (handler, ready) == E.AfterScript(old(handler), old(ready), effects)
      ensures fresh(repr - old(repr))
    {
      hide TextsOk, ReadHeader, ReadPayload, WaitPacket, Ended, Receive, E.AfterScript, E.OwnScript, E.Writeless, E.Watching, NoClose;
      effects, entry := [], (handler, ready);
      NoEffects(handler, ready);
      if handler == E.WaitPacket {
        WaitHandler(env);
      } else if handler == E.ProcessHeader {
        ProcessHeader(env);
      } else if handler == E.ProcessPayload {
        ProcessPayload(env);
      } else {
        BlockReading();
      }
      ClosedLast(effects);
    }

    /** The event loop finds the event ready and calls its handler, unless the connection
        was closed. */
    method Dispatch(env: Env)
      requires Valid() && TextsOk(env.texts)
      modifies repr
      ensures Valid() && State() == Dispatched(old(State()), env) && fresh(repr - old(repr))
      ensures Live(old(State()).conn) ==> ScriptFor(old(State()).(ready := true), State(), effects)
      ensures closes == poolsFreed == tempsFreed == if State().conn == Closed then 1 else 0
      ensures State().conn == Closed ==> data == FreeLink && buffer == null
    {
      hide TextsOk, Turn, Where, Valid, E.OwnScript, E.Writeless, E.Watching, E.AfterScript;
      Standing();
      if open && !lost {
        Readied();
        HandleRead(env);
        Standing();
      }
    }

    /** xdbd_post_event marks the event ready. */
    method Readied()
      requires Valid()
      modifies this`ready
      ensures Valid() && ready && State() == old(State()).(ready := true)
    {
      ready := true;
    }

    /** What the state says of the fields. */
    lemma Standing()
      requires Valid()
      ensures this in repr && (State().conn == Closed <==> !open)
      ensures Live(State().conn) <==> open && !lost
      ensures open && !lost ==> handler == HandlerOf(State().conn)
      ensures closes == poolsFreed == tempsFreed == if open then 0 else 1
      ensures !open ==> data == FreeLink && buffer == null
    {
    }

    /** A run of calls: over the whole run socket and pools are closed at most once. */
    method Serve(envs: seq<Env>)
      requires Valid() && EnvsOk(envs)
      modifies repr
      ensures Valid() && State() == Turns(old(State()), envs)
      ensures closes == poolsFreed == tempsFreed == if State().conn == Closed then 1 else 0
      ensures State().conn == Closed ==> data == FreeLink && buffer == null
    {
      hide TextsOk, Dispatched, Valid, Where;
      ghost var start := State();
      var i := 0;
      assert envs[..|envs|] == envs;
      while i < |envs|
        invariant 0 <= i <= |envs| && Valid() && fresh(repr - old(repr)) && State() == Turns(start, envs[..i])
      {
        assert envs[..i + 1][..i] == envs[..i];
        Dispatch(envs[i]);
        i := i + 1;
      }
      Standing();
    }
  }
}
