/** A packet connection over whole runs, as a value: what each call of its read handler
    makes of it, for everything recv(), the pool, the timer and the packet can come to. */
module AdbPeer {
  import opened Buf
  import opened Wire
  import opened Packet
  import opened AdbReader
  import E = EventState

  /** The outcomes a handler call depends on besides what recv() returns: whether the pool
      serves the buffer and the request, what processing the packet needs, whether the
      timer has expired and whether the reply goes out whole. */
  datatype Env = Env(buffer: bool, request: bool, texts: Texts, allocs: Allocs, timedOut: bool, sent: bool)

  /** What becomes of a connection whose packet has been processed. */
  datatype After = Waits | Blocks | Closes

  /** A CLSE closes the connection; a packet that was answered puts it back to waiting; one
      that was refused, or that the pool could not serve, leaves it blocked. */
  function Next(h: Header, t: Texts, a: Allocs): After
    requires TextsOk(t)
  {
    if EndsConnection(None, h, a) then Closes else if Answered(None, h, t, a) then Waits else Blocks
  }

  /** A connection between two calls: where it stands, its ready flag, what is left to be
      received, the packets handed on, the strings handed to send(), and whether its
      receive buffer exists. */
  datatype Peer = Peer(
    conn: Conn, ready: bool, incoming: seq<Recv>,
    packets: seq<(Header, seq<byte>)>, sent: seq<seq<byte>>, made: bool)

  function Shut(p: Peer): Peer {
    p.(conn := Closed, made := false)
  }

  /** A handler that ends with the step `s` of the byte-level reader.  When it hands on a
      packet the request's output is fresh, and what is sent is the reply as far as the
      output could take it. */
  function Ended(packets: seq<(Header, seq<byte>)>, sent: seq<seq<byte>>, s: Step, env: Env): Peer
    requires TextsOk(env.texts)
  {
    var q := Peer(s.conn, s.ready, s.incoming, packets, sent, true);
    match s.conn
    case Closed => Shut(q)
    case Parsed(h, payload) =>
      var r := q.(packets := packets + [(h, payload)]);
      match Next(h, env.texts, env.allocs) {
        case Waits =>
          r.(conn := Waiting, sent := sent + [Emitted(NEW_OUTPUT, Reply(h, env.texts).value, env.allocs).bytes])
        case Blocks => r.(conn := Blocked)
        case Closes => Shut(r)
      }
    case _ => q
  }

  /** A handler that hands on no packet. */
  lemma EndedElse(packets: seq<(Header, seq<byte>)>, sent: seq<seq<byte>>, s: Step, env: Env)
    requires TextsOk(env.texts) && !s.conn.Parsed?
    ensures Ended(packets, sent, s, env) == Peer(s.conn, s.ready, s.incoming, packets, sent, s.conn != Closed)
  {
  }

  /** One call of the read handler. */
  function Turn(p: Peer, env: Env): Peer
    requires TextsOk(env.texts)
  {
    match p.conn
    case Waiting =>
      if !p.made && !env.buffer then Shut(p)
      else if env.request && !env.timedOut then Ended(p.packets, p.sent, WaitPacket(p.ready, p.incoming), env)
      else
        var (g, rest) := Receive(p.incoming, ADB_MAX_PACKET_SIZE);
        var q := p.(ready := g.Data? && p.ready, incoming := rest, made := true);
        if g.NotReady? then q else Shut(q)
    case Assembling(_) => if env.timedOut then Shut(p) else Ended(p.packets, p.sent, CallAt(p.conn, p.ready, p.incoming), env)
    case Reading(_, _) => if env.timedOut then Shut(p) else Ended(p.packets, p.sent, CallAt(p.conn, p.ready, p.incoming), env)
    case _ => p
  }

  /** The wait handler's call, by what the first recv() comes to. */
  lemma TurnWaiting(p: Peer, env: Env)
    requires TextsOk(env.texts) && p.conn.Waiting? && (p.made || env.buffer)
    ensures var (g, rest) := Receive(p.incoming, ADB_MAX_PACKET_SIZE);
      Turn(p, env) ==
        match g
        case NotReady => p.(ready := false, incoming := rest, made := true)
        case Closing => Shut(p.(ready := false, incoming := rest))
        case Data(b) =>
          if env.request && !env.timedOut then Ended(p.packets, p.sent, ReadHeader(b, p.ready, rest), env)
          else Shut(p.(incoming := rest))
  {
    hide Receive, ReadHeader;
  }

  lemma NoBuffer(p: Peer, env: Env)
    requires TextsOk(env.texts) && p.conn.Waiting? && !p.made && !env.buffer
    ensures Turn(p, env) == Shut(p)
  {
  }

  ghost predicate EnvsOk(envs: seq<Env>) {
    forall i :: 0 <= i < |envs| ==> TextsOk(envs[i].texts)
  }

  /** A connection whose handler may still be called. */
  predicate Live(c: Conn) {
    !c.Closed? && !c.Wild?
  }

  /** The event is found ready. */
  function Dispatched(p: Peer, env: Env): Peer
    requires TextsOk(env.texts)
  {
    if Live(p.conn) then Turn(p.(ready := true), env) else p
  }

  /** A run of calls, each for an event found ready. */
  function Turns(p: Peer, envs: seq<Env>): Peer
    requires EnvsOk(envs)
  {
    if envs == [] then p else
    var n := |envs| - 1;
    Dispatched(Turns(p, envs[..n]), envs[n])
  }

  /** A connection just accepted. */
  function Accepted(incoming: seq<Recv>): Peer {
    Peer(Waiting, false, incoming, [], [], false)
  }

  /** The handler of a connection's read event. */
  function HandlerOf(c: Conn): E.Handler {
    match c
    case Waiting => E.WaitPacket
    case Assembling(_) => E.ProcessHeader
    case Reading(_, _) => E.ProcessPayload
    case Blocked => E.BlockReading
    case _ => E.NoHandler
  }

  /** A script that tells the event loop what the call from `p` to `q` does: it closes the
      connection last, if at all, never hands over the write event, stops the reading exactly
      when `p` is blocked, and leaves the read event with the handler and the ready flag of `q`. */
  ghost predicate ScriptFor(p: Peer, q: Peer, es: seq<E.Effect>) {
    && E.OwnScript(es) && E.Writeless(es)
    && (if p.conn.Blocked? then es == [E.BlockRead] else E.Watching(es))
    && (q.conn == Closed <==> es != [] && es[|es| - 1].CloseConnection?)
    && (Live(q.conn) ==> E.AfterScript(HandlerOf(p.conn), p.ready, es) == (HandlerOf(q.conn), q.ready))
  }

  // ------------------------------------------------- runs and the byte-level reader

  /** Nothing but recv() and the packet decides what a call does. */
  ghost predicate Plain(envs: seq<Env>) {
    forall i :: 0 <= i < |envs| ==> envs[i].buffer && envs[i].request && !envs[i].timedOut
  }

  lemma {:induction false} CallsSplit(c: Conn, incoming: seq<Recv>, n: nat)
    ensures var s := Calls(c, incoming, n);
      Calls(c, incoming, n + 1).conn == Call(s.conn, s.incoming).conn
      && Calls(c, incoming, n + 1).incoming == Call(s.conn, s.incoming).incoming
    decreases n
  {
    hide Call;
    var t := Call(c, incoming);
    if n > 0 {
      CallsSplit(t.conn, t.incoming, n - 1);
    } else {
      assert Calls(t.conn, t.incoming, 0).conn == t.conn;
    }
  }

  /** The peer is where `n` calls of the byte-level reader end, or its first packet is the
      one the reader ended with. */
  ghost predicate Matches(p: Peer, q: Peer, s: Step) {
    if s.conn.Parsed? then
      |q.packets| > |p.packets| && q.packets[..|p.packets| + 1] == p.packets + [(s.conn.h, s.conn.payload)]
    else q.conn == s.conn && q.incoming == s.incoming && q.packets == p.packets && q.sent == p.sent
  }

  /** Until its first packet is complete a connection does exactly what the byte-level
      reader does, and the first packet handed on is the reader's. */
  lemma {:induction false} RunsLikeCalls(p: Peer, envs: seq<Env>)
    requires EnvsOk(envs) && Plain(envs) && !p.conn.Parsed?
    ensures Matches(p, Turns(p, envs), Calls(p.conn, p.incoming, |envs|))
    decreases |envs|
  {
    hide Call, TextsOk, Dispatched, Matches;
    if envs == [] {
      MatchesNone(p);
    } else {
      var n := |envs| - 1;
      RunsLikeCalls(p, envs[..n]);
      CallsSplit(p.conn, p.incoming, n);
      MatchesMore(p, Turns(p, envs[..n]), Calls(p.conn, p.incoming, n), Calls(p.conn, p.incoming, n + 1), envs[n]);
    }
  }

  lemma MatchesNone(p: Peer)
    requires !p.conn.Parsed?
    ensures Matches(p, p, Calls(p.conn, p.incoming, 0))
  {
  }

  lemma MatchesMore(p: Peer, q: Peer, s: Step, u: Step, env: Env)
    requires TextsOk(env.texts) && env.buffer && env.request && !env.timedOut && Matches(p, q, s)
    requires u.conn == Call(s.conn, s.incoming).conn && u.incoming == Call(s.conn, s.incoming).incoming
    ensures Matches(p, Dispatched(q, env), u)
  {
    hide WaitPacket, ReadHeader, ReadPayload, TextsOk, Turn;
    TurnIsCall(q.(ready := true), env);
  }

  /** One call, seen as a step of the reader. */
  lemma TurnIsCall(p: Peer, env: Env)
    requires TextsOk(env.texts) && env.buffer && env.request && !env.timedOut && p.ready
    ensures var s, q := Call(p.conn, p.incoming), Turn(p, env);
      && |q.packets| >= |p.packets| && q.packets[..|p.packets|] == p.packets
      && (!p.conn.Parsed? ==>
            if s.conn.Parsed? then q.packets == p.packets + [(s.conn.h, s.conn.payload)]
            else q.conn == s.conn && q.incoming == s.incoming && q.packets == p.packets && q.sent == p.sent)
  {
    hide WaitPacket, ReadHeader, ReadPayload, TextsOk, Emitted, Next, Reply, Receive;
  }

  /** The first packet handed on has the header and the payload of the stream, when the payload
      came with the header or with the next segment. */
  lemma FirstPacket(p: Peer, envs: seq<Env>, pre: seq<Recv>, b: seq<byte>, more: seq<Recv>)
    requires EnvsOk(envs) && Plain(envs) && p.conn.Waiting? && p.incoming == pre + AgainThen(0, b) + more && |envs| == |p.incoming|
    requires Completes(pre, 0) && b != []
    requires var end := HEADER_SIZE + DecodeHeader(Flat(pre)[..HEADER_SIZE]).dlen;
      end <= ADB_MAX_PACKET_SIZE && end <= |Flat(pre)| + |b|
    ensures var q, stream := Turns(p, envs), Flat(p.incoming); var n := |p.packets|;
      && |q.packets| > n && |stream| >= HEADER_SIZE
      && var h := DecodeHeader(stream[..HEADER_SIZE]);
         && q.packets[n].0 == h && |stream| >= HEADER_SIZE + h.dlen && |q.packets[n].1| >= h.dlen
         && q.packets[n].1[..h.dlen] == stream[HEADER_SIZE..HEADER_SIZE + h.dlen]
  {
    hide DecodeHeader, Flat, Completes, Calls, Turns, TextsOk;
    CompletesLong(pre);
    RunsLikeCalls(p, envs);
    FlatScript(pre, 0, b, more);
    var all, s, q, n := Flat(pre), Calls(Waiting, p.incoming, |p.incoming|), Turns(p, envs), |p.packets|;
    assert (all + b + Flat(more))[..HEADER_SIZE] == all[..HEADER_SIZE];
    if |all| < HEADER_SIZE + DecodeHeader(all[..HEADER_SIZE]).dlen {
      PromptPayload(pre, b, more);
    } else {
      assert p.incoming == pre + (AgainThen(0, b) + more);
      BufferedPayload(pre, AgainThen(0, b) + more);
    }
    assert q.packets[n] == q.packets[..n + 1][n] == (s.conn.h, s.conn.payload);
  }

  // ------------------------------------------------------ what ends a connection

  /** A client that hangs up, or fails, before its packet is complete ends the connection, with
      nothing handed on and nothing sent: before the header is complete, ... */
  lemma HangUpInHeader(p: Peer, envs: seq<Env>, pre: seq<Recv>, e: Recv, more: seq<Recv>)
    requires EnvsOk(envs) && Plain(envs) && p.conn.Waiting? && p.incoming == pre + [e] + more && |envs| > |pre|
    requires Steady(pre) && |Flat(pre)| < HEADER_SIZE && e in {Eof, Failed}
    ensures var q := Turns(p, envs); q.conn == Closed && q.packets == p.packets && q.sent == p.sent
  {
    hide Calls, Turns, TextsOk, Flat, Steady;
    RunsLikeCalls(p, envs);
    EndInHeader(Waiting, pre, e, more, |envs|);
  }

  /** ... or after it, unless `k` times AGAIN have taken `last` below the buffer. */
  lemma HangUpInPayload(p: Peer, envs: seq<Env>, pre: seq<Recv>, k: nat, e: Recv, more: seq<Recv>)
    requires EnvsOk(envs) && Plain(envs) && p.conn.Waiting? && p.incoming == pre + Agains(k) + [e] + more
    requires Completes(pre, 0) && |Flat(pre)| <= ADB_MAX_PACKET_SIZE && |envs| >= |pre| + k && e in {Eof, Failed}
    requires |Flat(pre)| < HEADER_SIZE + DecodeHeader(Flat(pre)[..HEADER_SIZE]).dlen
    ensures var q := Turns(p, envs);
      q.conn == (if 2 * k > |Flat(pre)| then Wild else Closed) && q.packets == p.packets && q.sent == p.sent
  {
    hide Calls, Turns, TextsOk, Flat, Completes, DecodeHeader;
    RunsLikeCalls(p, envs);
    EndBeforePayload(pre, k, e, more, |envs|);
  }

  /** A call also ends the connection when the timer expired while a packet was being read, and
      when the pool refuses the buffer, or the request for a packet whose first bytes came; a
      blocked connection's call changes nothing. */
  lemma WhatShuts(p: Peer, env: Env)
    requires TextsOk(env.texts)
    ensures var q := Dispatched(p, env);
      && (env.timedOut && (p.conn.Assembling? || p.conn.Reading?) ==> q.conn == Closed)
      && (p.conn.Waiting? && !p.made && !env.buffer ==> q.conn == Closed)
      && (p.conn.Waiting? && (!env.request || env.timedOut) && p.incoming != [] && p.incoming[0] != Again ==> q.conn == Closed)
      && (p.conn.Blocked? ==> q.conn == Blocked)
      && (q.conn == Closed && p.conn != Closed && !(exists h, payload :: Works(p, q, h, payload, env)) ==>
            q.packets == p.packets && q.sent == p.sent)
  {
    hide ReadHeader, ReadPayload, Works, Ended, TextsOk;
    TurnSends(p, env);
  }

  /** What a packet leaves behind, by its header: a CLSE closes the connection; a packet that is
      answered leaves it waiting for the next; any other, and one the pool could not serve,
      leaves it open and blocked.  Check word and command are those of `WhoIsAnswered`. */
  lemma AfterPacket(p: Peer, env: Env, h: Header, payload: seq<byte>)
    requires TextsOk(env.texts) && Live(p.conn) && Works(p, Dispatched(p, env), h, payload, env)
    ensures var c, a := Dispatched(p, env).conn, env.allocs;
      var right := h.magic + h.pcmd == 0xffff_ffff;
      var command := h.pcmd in {0x4e584e43, 0x48545541, 0x59414b4f, 0x45545257} || (h.pcmd == 0x4e45504f && h.arg0 != 0);
      && (c == Closed <==> right && h.pcmd == 0x45534c43 && a.out)
      && (c == Waiting <==> right && command && a.out && a.packet && a.payload)
      && (c == Blocked <==> !(right && h.pcmd == 0x45534c43 && a.out) && !(right && command && a.out && a.packet && a.payload))
  {
    hide WaitPacket, ReadHeader, ReadPayload, Receive, TextsOk, Ended, Reply, Lookup, MagicOk;
    var q := Dispatched(p, env);
    var s := CallAt(p.conn, true, p.incoming);
    assert q.packets[|p.packets|] == (h, payload);
    if q == Ended(p.packets, p.sent, s, env) {
      HandedOn(p, s, env);
      assert h == s.conn.h;
      assert Next(h, env.texts, env.allocs).Waits? <==> !EndsConnection(None, h, env.allocs) && Answered(None, h, env.texts, env.allocs);
      WhoIsAnswered(h, env.texts);
      WhatCloses(None, h, env.allocs);
    }
  }

  lemma HandedOn(p: Peer, s: Step, env: Env)
    requires TextsOk(env.texts) && |Ended(p.packets, p.sent, s, env).packets| > |p.packets|
    ensures s.conn.Parsed? && Ended(p.packets, p.sent, s, env).packets == p.packets + [(s.conn.h, s.conn.payload)]
    ensures Ended(p.packets, p.sent, s, env).conn ==
      match Next(s.conn.h, env.texts, env.allocs) case Waits => Waiting case Blocks => Blocked case Closes => Closed
  {
    hide Next, Reply, Emitted;
  }

  // ------------------------------------------------------------ what is sent

  /** The string that answers a packet with header `h`: the reply, unless it has more than
      1000 bytes of payload and the pool refused to let the output grow. */
  function AnswerBytes(h: Header, env: Env): seq<byte>
    requires TextsOk(env.texts) && Answered(None, h, env.texts, env.allocs)
  {
    var f := Reply(h, env.texts).value;
    if |f.payload| <= 1000 || env.allocs.body then Bytes(f) else EncodeHeader(f.header)
  }

  /** How an answer reads, and that it passes the daemon's own check. */
  lemma AnswerReads(h: Header, env: Env)
    requires TextsOk(env.texts) && Answered(None, h, env.texts, env.allocs)
    ensures var f := Reply(h, env.texts).value;
      && MagicOk(f.header)
      && Parse(AnswerBytes(h, env)) == if |f.payload| <= 1000 || env.allocs.body then Some([f]) else None
  {
    hide Reply, Emitted, Parse, EncodeHeader, MagicOk, TextsOk;
    FirstReply(Reply(h, env.texts).value, env.allocs);
  }

  /** Texts as short as the daemon's own: a token of 20 bytes, a banner of 399, data of 12. */
  ghost predicate TextsShort(t: Texts) {
    |t.token| <= 1000 && |Joined(t.banner)| <= 1000 && |t.data| <= 1000
  }

  /** With such texts no answer is ever torn. */
  lemma ShortAnswers(h: Header, env: Env)
    requires TextsShort(env.texts) && Answered(None, h, env.texts, env.allocs)
    ensures Parse(AnswerBytes(h, env)) == Some([Reply(h, env.texts).value])
  {
    hide Parse, EncodeHeader, MagicOk, AnswerBytes, Lookup;
    AnswerReads(h, env);
  }

  /** The packets a run hands on, each with the circumstances of its call. */
  function Work(p: Peer, envs: seq<Env>): (work: seq<(Header, Env)>)
    requires EnvsOk(envs)
    ensures WorkOk(work)
  {
    if envs == [] then [] else
    var n := |envs| - 1;
    var r, q := Turns(p, envs[..n]), Turns(p, envs);
    Work(p, envs[..n]) + if |q.packets| > |r.packets| then [(q.packets[|q.packets| - 1].0, envs[n])] else []
  }

  ghost predicate WorkOk(work: seq<(Header, Env)>) {
    forall i :: 0 <= i < |work| ==> TextsOk(work[i].1.texts)
  }

  /** One answer for each packet that is answered, in order. */
  function AnswersTo(work: seq<(Header, Env)>): seq<seq<byte>>
    requires WorkOk(work)
  {
    if work == [] then [] else
    var n := |work| - 1;
    var (h, env) := work[n];
    AnswersTo(work[..n]) + if Answered(None, h, env.texts, env.allocs) then [AnswerBytes(h, env)] else []
  }

  /** What a call that hands on a packet with header `h` sends. */
  ghost predicate Works(p: Peer, q: Peer, h: Header, payload: seq<byte>, env: Env)
    requires TextsOk(env.texts)
  {
    && q.packets == p.packets + [(h, payload)]
    && q.sent == p.sent + if Answered(None, h, env.texts, env.allocs) then [AnswerBytes(h, env)] else []
  }

  /** A call hands on no packet and sends nothing, or hands on one and sends its answer, if it
      has one. */
  lemma TurnSends(p: Peer, env: Env)
    requires TextsOk(env.texts)
    ensures var q := Dispatched(p, env);
      (q.packets == p.packets && q.sent == p.sent) || exists h, payload :: Works(p, q, h, payload, env)
  {
    hide WaitPacket, ReadHeader, ReadPayload, Receive, Works, TextsOk, Ended, Answered;
    var q := Dispatched(p, env);
    var s := CallAt(p.conn, true, p.incoming);
    if Live(p.conn) && q == Ended(p.packets, p.sent, s, env) {
      EndedSends(p, s, env);
    }
  }

  lemma EndedSends(p: Peer, s: Step, env: Env)
    requires TextsOk(env.texts)
    ensures var q := Ended(p.packets, p.sent, s, env);
      if s.conn.Parsed? then Works(p, q, s.conn.h, s.conn.payload, env) else q.packets == p.packets && q.sent == p.sent
  {
    hide Reply, Emitted, EncodeHeader, MagicOk, TextsOk, Lookup, Parse;
    if s.conn.Parsed? {
      CloseUnanswered(s.conn.h, env.texts);
      if Reply(s.conn.h, env.texts).Some? { FirstReply(Reply(s.conn.h, env.texts).value, env.allocs); }
    }
  }

  /** From `p` to `q` the packets of `work` were handed on, and their answers sent, one for each
      that is answered, in order. */
  ghost predicate Did(p: Peer, q: Peer, work: seq<(Header, Env)>)
    requires WorkOk(work)
  {
    && q.sent == p.sent + AnswersTo(work)
    && |q.packets| == |p.packets| + |work|
    && (forall i :: 0 <= i < |work| ==> q.packets[|p.packets| + i].0 == work[i].0)
  }

  lemma DidMore(p: Peer, r: Peer, q: Peer, work: seq<(Header, Env)>, h: Header, payload: seq<byte>, env: Env)
    requires WorkOk(work) && TextsOk(env.texts) && Did(p, r, work) && Works(r, q, h, payload, env)
    ensures WorkOk(work + [(h, env)]) && Did(p, q, work + [(h, env)])
  {
    hide TextsOk, Answered, AnswerBytes;
    var more := work + [(h, env)];
    assert more[..|work|] == work;
    assert AnswersTo(more) == AnswersTo(work) + if Answered(None, h, env.texts, env.allocs) then [AnswerBytes(h, env)] else [];
  }

  /** Over any run, what is handed to send() is the answers to the packets handed on. */
  lemma {:induction false} SentAnswers(p: Peer, envs: seq<Env>)
    requires EnvsOk(envs)
    ensures Did(p, Turns(p, envs), Work(p, envs))
    decreases |envs|
  {
    hide Dispatched, TextsOk, Did, Works;
    if envs == [] {
      DidNothing(p);
    } else {
      var n := |envs| - 1;
      var r, q := Turns(p, envs[..n]), Turns(p, envs);
      SentAnswers(p, envs[..n]);
      TurnSends(r, envs[n]);
      if h, payload :| Works(r, q, h, payload, envs[n]) {
        DidMore(p, r, q, Work(p, envs[..n]), h, payload, envs[n]);
        WorksLast(r, q, h, payload, envs[n]);
      } else {
        DidSame(p, r, q, Work(p, envs[..n]));
        assert Work(p, envs) == Work(p, envs[..n]);
      }
    }
  }

  lemma DidNothing(p: Peer)
    ensures Did(p, p, [])
  {
  }

  lemma DidSame(p: Peer, r: Peer, q: Peer, work: seq<(Header, Env)>)
    requires WorkOk(work) && Did(p, r, work) && q.packets == r.packets && q.sent == r.sent
    ensures Did(p, q, work)
  {
  }

  lemma WorksLast(p: Peer, q: Peer, h: Header, payload: seq<byte>, env: Env)
    requires TextsOk(env.texts) && Works(p, q, h, payload, env)
    ensures |q.packets| == |p.packets| + 1 && q.packets[|q.packets| - 1].0 == h
  {
  }

  /** With texts as short as the daemon's, everything a connection ever hands to send() reads
      as one frame, which passes the daemon's own check. */
  lemma SentIsReadable(p: Peer, envs: seq<Env>)
    requires EnvsOk(envs) && p.sent == [] && forall i :: 0 <= i < |envs| ==> TextsShort(envs[i].texts)
    ensures forall s :: s in Turns(p, envs).sent ==> Parse(s).Some? && |Parse(s).value| == 1 && MagicOk(Parse(s).value[0].header)
  {
    hide Turns, Work, Parse, MagicOk, TextsShort;
    SentAnswers(p, envs);
    WorkShort(p, envs);
    AnswersReadable(Work(p, envs));
  }

  lemma {:induction false} WorkShort(p: Peer, envs: seq<Env>)
    requires EnvsOk(envs) && forall i :: 0 <= i < |envs| ==> TextsShort(envs[i].texts)
    ensures forall i :: 0 <= i < |Work(p, envs)| ==> TextsShort(Work(p, envs)[i].1.texts)
  {
    hide TextsShort, TextsOk, Turns;
    if envs != [] { WorkShort(p, envs[..|envs| - 1]); }
  }

  lemma {:induction false} AnswersReadable(work: seq<(Header, Env)>)
    requires WorkOk(work) && forall i :: 0 <= i < |work| ==> TextsShort(work[i].1.texts)
    ensures forall s :: s in AnswersTo(work) ==> Parse(s).Some? && |Parse(s).value| == 1 && MagicOk(Parse(s).value[0].header)
  {
    hide Parse, MagicOk, TextsShort, TextsOk, AnswerBytes, Answered;
    if work != [] {
      var n := |work| - 1;
      var (h, env) := work[n];
      AnswersReadable(work[..n]);
      if Answered(None, h, env.texts, env.allocs) {
        ShortAnswers(h, env);
        AnswerReads(h, env);
      }
    }
  }
}
