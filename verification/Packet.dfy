/** Processing a packet: the dispatch table, the reply packets, and the output buffer in
    which replies pile up as frames.  The text constants of the replies are parameters. */
module Packet {
  import opened Buf
  import opened Wire

  const XDBD_OK := 0
  const XDBD_ERR := -1
  const ADB_MAX_PACKET_SIZE: nat := 1024 * 1024
  const ADB_AUTH_TOKEN: word := 1
  const ADB_VERSION: word := 0x01000001

  const PCMD_SYNC := PcmdAscii("SYNC")
  const PCMD_CNXN := PcmdAscii("CNXN")
  const PCMD_OPEN := PcmdAscii("OPEN")
  const PCMD_OKAY := PcmdAscii("OKAY")
  const PCMD_CLSE := PcmdAscii("CLSE")
  const PCMD_WRTE := PcmdAscii("WRTE")
  const PCMD_AUTH := PcmdAscii("AUTH")
  const PCMD_STLS := PcmdAscii("STLS")

  datatype Kind = BugOn | Cnxn | Open | Okay | Close | Write | Auth

  const PCMDS: seq<(word, Kind)> := [
    (PCMD_SYNC, BugOn), (PCMD_CNXN, Cnxn), (PCMD_OPEN, Open), (PCMD_OKAY, Okay),
    (PCMD_CLSE, Close), (PCMD_WRTE, Write), (PCMD_AUTH, Auth), (PCMD_STLS, BugOn)]

  /** The packing agrees with the numbers protocol.txt gives for the commands. */
  lemma CommandWords()
    ensures PCMD_SYNC == 0x434e5953 && PCMD_CNXN == 0x4e584e43 && PCMD_OPEN == 0x4e45504f
    ensures PCMD_OKAY == 0x59414b4f && PCMD_CLSE == 0x45534c43 && PCMD_WRTE == 0x45545257
    ensures PCMD_AUTH == 0x48545541 && PCMD_STLS == 0x534c5453
  {
  }

  /** The `~` of a 32-bit word. */
  function Complement(w: word): word {
    UINT - 1 - w
  }

  predicate MagicOk(h: Header) {
    h.magic == Complement(h.pcmd)
  }

  /** The text constants: the CNXN reply's token, the pieces of the banner that answers
      AUTH, and the data that answers WRTE. */
  datatype Texts = Texts(token: seq<byte>, banner: seq<seq<byte>>, data: seq<byte>)

  function Joined(parts: seq<seq<byte>>): seq<byte> {
    if parts == [] then [] else Joined(parts[..|parts| - 1]) + parts[|parts| - 1]
  }

  ghost predicate TextsOk(t: Texts) {
    |t.token| <= ADB_MAX_PACKET_SIZE && |Joined(t.banner)| <= ADB_MAX_PACKET_SIZE && |t.data| <= ADB_MAX_PACKET_SIZE
  }

  /** xdbd_fill_packet: length, no checksum, and the check word. */
  function Filled(pcmd: word, arg0: word, arg1: word, payload: seq<byte>): (f: Frame)
    requires |payload| <= ADB_MAX_PACKET_SIZE
    ensures WellFormed(f) && MagicOk(f.header) && f.payload == payload
  {
    Frame(Header(pcmd, arg0, arg1, |payload|, 0, Complement(pcmd)), payload)
  }

  /** `k` is the first entry of the table, from position `i` on, for a command. */
  ghost predicate FirstEntry(pcmd: word, i: nat, k: Option<Kind>) {
    match k
    case None => forall j :: i <= j < |PCMDS| ==> PCMDS[j].0 != pcmd
    case Some(kind) =>
      exists j :: i <= j < |PCMDS| && PCMDS[j] == (pcmd, kind) && forall l :: i <= l < j ==> PCMDS[l].0 != pcmd
  }

  /** The entry of the table for a command. */
  function Lookup(pcmd: word, i: nat): (k: Option<Kind>)
    requires i <= |PCMDS|
    decreases |PCMDS| - i
  {
    if i == |PCMDS| then None
    else if PCMDS[i].0 == pcmd then Some(PCMDS[i].1)
    else Lookup(pcmd, i + 1)
  }

  lemma {:induction false} LookupIsFirst(pcmd: word, i: nat)
    requires i <= |PCMDS|
    ensures FirstEntry(pcmd, i, Lookup(pcmd, i))
    decreases |PCMDS| - i
  {
    hide PCMDS;
    if i < |PCMDS| && PCMDS[i].0 != pcmd {
      LookupIsFirst(pcmd, i + 1);
    }
  }

  lemma OneFirstEntry(pcmd: word, k: Option<Kind>, l: Option<Kind>)
    requires FirstEntry(pcmd, 0, k) && FirstEntry(pcmd, 0, l)
    ensures k == l
  {
    hide PCMDS;
  }

  /** The frame a packet is answered with, when its own check word is right. */
  function Reply(h: Header, t: Texts): (f: Option<Frame>)
    requires TextsOk(t)
    ensures f.Some? ==> WellFormed(f.value) && MagicOk(f.value.header) && MagicOk(h) && |f.value.payload| <= ADB_MAX_PACKET_SIZE
  {
    if !MagicOk(h) then None else
    match Lookup(h.pcmd, 0)
    case Some(Cnxn) => Some(Filled(PCMD_AUTH, ADB_AUTH_TOKEN, 0, t.token))
    case Some(Auth) => Some(Filled(PCMD_CNXN, ADB_VERSION, ADB_MAX_PACKET_SIZE, Joined(t.banner)))
    case Some(Open) => if h.arg0 == 0 then None else Some(Filled(PCMD_OKAY, 1, h.arg0, []))
    case Some(Okay) => Some(Filled(PCMD_OKAY, 1, h.arg0, []))
    case Some(Write) => Some(Filled(PCMD_WRTE, 1, h.arg0, t.data))
    case _ => None
  }

  /** Which packets are answered: those whose check word is right and whose command has a
      reply, except an OPEN for stream 0.  A CLSE, SYNC, STLS or unknown command has none. */
  lemma WhoIsAnswered(h: Header, t: Texts)
    requires TextsOk(t)
    ensures Reply(h, t).Some? <==>
      && h.magic + h.pcmd == 0xffff_ffff
      && h.pcmd in {0x4e584e43, 0x48545541, 0x4e45504f, 0x59414b4f, 0x45545257}
      && (h.pcmd == 0x4e45504f ==> h.arg0 != 0)
  {
    hide Filled, Joined;
  }

  /** `f` has these fields and this payload, no checksum, and a right length and check word. */
  ghost predicate FrameIs(f: Frame, pcmd: int, arg0: int, arg1: int, payload: seq<byte>) {
    && f.header.pcmd == pcmd && f.header.arg0 == arg0 && f.header.arg1 == arg1
    && f.header.dlen == |payload| && f.header.dchecksum == 0 && f.header.magic == 0xffff_ffff - pcmd
    && f.payload == payload
  }

  /** What each packet with a right check word is answered with: CNXN with an AUTH that carries
      the token, AUTH with a CNXN that carries the banner, OPEN (of a stream other than 0) and
      OKAY with an OKAY, WRTE with a WRTE. */
  lemma WhatIsAnswered(h: Header, t: Texts)
    requires TextsOk(t) && h.magic + h.pcmd == 0xffff_ffff
    ensures var r := Reply(h, t);
      && (h.pcmd == 0x4e584e43 ==> r.Some? && FrameIs(r.value, 0x48545541, 1, 0, t.token))
      && (h.pcmd == 0x48545541 ==> r.Some? && FrameIs(r.value, 0x4e584e43, 0x01000001, 0x100000, Joined(t.banner)))
      && (h.pcmd == 0x59414b4f || (h.pcmd == 0x4e45504f && h.arg0 != 0) ==>
            r.Some? && FrameIs(r.value, 0x59414b4f, 1, h.arg0, []))
      && (h.pcmd == 0x45545257 ==> r.Some? && FrameIs(r.value, 0x45545257, 1, h.arg0, t.data))
  {
    hide Joined;
  }

  /** Whether the pool serves each request made while a packet is processed: the output
      buffer, the reply record, its payload buffer, and a growth at each of the two appends. */
  datatype Allocs = Allocs(out: bool, packet: bool, payload: bool, header: bool, body: bool)

  // ------------------------------------------------------ the output buffer

  datatype OutputRecord = Output(cap: nat, bytes: seq<byte>)

  /** The output buffer: its capacity, below 2^32, and its content, which starts at the bottom. */
  type Output = o: OutputRecord | |o.bytes| <= o.cap < UINT witness Output(0, [])

  const NEW_OUTPUT: Output := Output(1024, [])

  /** One append to the output, and what it comes to. */
  function Appended(o: Output, data: seq<byte>, ok: bool): (Output, Append) {
    var room := o.cap - |o.bytes|;
    var r := AppendResult(room, o.cap, |o.bytes|, |data|, ok);
    if !r.Done? then (o, r)
    else if |data| <= room then (Output(o.cap, o.bytes + data), r)
    else (Output(NewCapacity(o.cap, |o.bytes|, |data|), o.bytes + data), r)
  }

  /** The two appends every reply ends with. */
  function Emitted(o: Output, f: Frame, a: Allocs): Output {
    Appended(Appended(o, EncodeHeader(f.header), a.header).0, f.payload, a.body).0
  }

  /** Both appends took place. */
  predicate Whole(o: Output, f: Frame, a: Allocs) {
    var (p, r) := Appended(o, EncodeHeader(f.header), a.header);
    r.Done? && Appended(p, f.payload, a.body).1.Done?
  }

  /** One of them wrote past the output's new store. */
  predicate Overran(o: Output, f: Frame, a: Allocs) {
    var (p, r) := Appended(o, EncodeHeader(f.header), a.header);
    r.Overrun? || Appended(p, f.payload, a.body).1.Overrun?
  }

  /** Whether `n` bytes can be appended: they fit the room, or the pool serves a growth to a
      total below 2^32. */
  predicate Takes(o: Output, n: nat, ok: bool) {
    n <= o.cap - |o.bytes| || (ok && |o.bytes| + n < UINT)
  }

  /** Whether a reply reaches the output whole, from the room there is, the length of its
      payload and what the pool serves. */
  predicate Fits(o: Output, payload: nat, a: Allocs) {
    var room := o.cap - |o.bytes|;
    && Takes(o, HEADER_SIZE, a.header)
    && var left := (if room >= HEADER_SIZE then room else NewCapacity(o.cap, |o.bytes|, HEADER_SIZE) - |o.bytes|) - HEADER_SIZE;
       payload <= left || (a.body && |o.bytes| + HEADER_SIZE + payload < UINT)
  }

  /** An append, by room and length. */
  lemma AppendedIs(o: Output, data: seq<byte>, ok: bool)
    ensures var (p, r) := Appended(o, data, ok); var total := |o.bytes| + |data|;
      && (r.Done? <==> Takes(o, |data|, ok))
      && (r.Overrun? ==> ok && total > UINT)
      && (ok && UINT < total < 2 * UINT && |data| > o.cap - |o.bytes| ==> r.Overrun?)
      && p.bytes == (if r.Done? then o.bytes + data else o.bytes)
      && (r.Done? ==> p.cap == if |data| <= o.cap - |o.bytes| then o.cap else NewCapacity(o.cap, |o.bytes|, |data|))
      && (!r.Done? ==> p.cap == o.cap)
  {
    if |data| > o.cap - |o.bytes| {
      CapacityHolds(o.cap, |o.bytes|, |data|);
      if |o.bytes| + |data| <= UINT {
        PlainAppend(o.cap - |o.bytes|, o.cap, o.bytes, |data|, ok);
      }
    }
  }

  lemma WholeIffFits(o: Output, f: Frame, a: Allocs)
    ensures Whole(o, f, a) <==> Fits(o, |f.payload|, a)
  {
    hide EncodeHeader, NewCapacity, Appended;
    var b := EncodeHeader(f.header);
    AppendedIs(o, b, a.header);
    AppendedIs(Appended(o, b, a.header).0, f.payload, a.body);
  }

  /** The output after a reply, by which of its appends took place. */
  lemma EmittedParts(o: Output, f: Frame, a: Allocs)
    ensures var p := Appended(o, EncodeHeader(f.header), a.header).0;
      Emitted(o, f, a).bytes == o.bytes
        + (if Takes(o, HEADER_SIZE, a.header) then EncodeHeader(f.header) else [])
        + (if Takes(p, |f.payload|, a.body) then f.payload else [])
    ensures !Takes(o, HEADER_SIZE, a.header) ==> Appended(o, EncodeHeader(f.header), a.header).0 == o
  {
    hide EncodeHeader, NewCapacity, Appended;
    var b := EncodeHeader(f.header);
    AppendedIs(o, b, a.header);
    AppendedIs(Appended(o, b, a.header).0, f.payload, a.body);
  }

  /** The growths of the output are not checked.  Unless one overruns the store, what the
      output then is, and when it can still be read, is decided by the room before, the
      payload and the pool: a reply that fits is there whole; one whose header is lost leaves
      the output readable only if its payload is lost too or happens to read as frames. */
  lemma TornReply(o: Output, f: Frame, a: Allocs, fs: seq<Frame>)
    requires o.bytes == Stream(fs) && WellFormed(f) && (forall g :: g in fs ==> WellFormed(g)) && !Overran(o, f, a)
    ensures var n, out := |f.payload|, Emitted(o, f, a).bytes;
      && (out == Stream(fs + [f]) <==> Fits(o, n, a))
      && (Parse(out).Some? <==>
            Fits(o, n, a) || (!Takes(o, HEADER_SIZE, a.header) && (!Takes(o, n, a.body) || Parse(f.payload).Some?)))
  {
    hide EncodeHeader, Parse, Stream, NewCapacity, Appended, Fits, Takes, Emitted;
    var p := Appended(o, EncodeHeader(f.header), a.header).0;
    var headerDone, bodyDone := Takes(o, HEADER_SIZE, a.header), Takes(p, |f.payload|, a.body);
    EmittedParts(o, f, a);
    WholeIffFits(o, f, a);
    AppendedIs(o, EncodeHeader(f.header), a.header);
    AppendedIs(p, f.payload, a.body);
    NothingTaken(p, a.body);
    StreamAppend(fs, f);
    ReadableWhen(fs, f, headerDone, bodyDone);
  }

  lemma NothingTaken(o: Output, ok: bool)
    ensures Takes(o, 0, ok)
  {
  }

  /** The first reply of a request needs no growth up to 1000 bytes of payload: whatever the
      pool serves it is the output; a longer one loses its payload when the growth fails. */
  lemma FirstReply(f: Frame, a: Allocs)
    requires WellFormed(f) && HEADER_SIZE + |f.payload| < UINT
    ensures !Overran(NEW_OUTPUT, f, a)
    ensures Whole(NEW_OUTPUT, f, a) <==> |f.payload| <= 1000 || a.body
    ensures Emitted(NEW_OUTPUT, f, a).bytes == if |f.payload| <= 1000 || a.body then Bytes(f) else EncodeHeader(f.header)
    ensures Parse(Emitted(NEW_OUTPUT, f, a).bytes) == if |f.payload| <= 1000 || a.body then Some([f]) else None
  {
    hide EncodeHeader, Parse, Appended, NewCapacity, Emitted;
    var p, out := Appended(NEW_OUTPUT, EncodeHeader(f.header), a.header).0, Emitted(NEW_OUTPUT, f, a).bytes;
    AppendedIs(NEW_OUTPUT, EncodeHeader(f.header), a.header);
    AppendedIs(p, f.payload, a.body);
    EmittedParts(NEW_OUTPUT, f, a);
    WholeIffFits(NEW_OUTPUT, f, a);
    TornReply(NEW_OUTPUT, f, a, []);
    ParseIffStream(out, [f]);
    assert Stream([] + [f]) == Bytes(f) + Stream([]);
  }

  lemma FirstReplySent(h: Header, t: Texts, a: Allocs)
    requires TextsOk(t)
    ensures Reply(h, t).Some? ==>
      Emitted(NEW_OUTPUT, Reply(h, t).value, a).bytes != [] && !Overran(NEW_OUTPUT, Reply(h, t).value, a)
  {
    hide Reply, TextsOk, Emitted, MagicOk, Parse;
    if Reply(h, t).Some? { FirstReply(Reply(h, t).value, a); }
  }

  /** What xdbd_process_packet makes of the output; `None` is an output not yet created. */
  function Process(o: Option<Output>, h: Header, t: Texts, a: Allocs): Option<Output>
    requires TextsOk(t)
  {
    if !MagicOk(h) || (o.None? && !a.out) then o else
    var b := if o.None? then NEW_OUTPUT else o.value;
    Some(if Answered(o, h, t, a) then Emitted(b, Reply(h, t).value, a) else b)
  }

  /** The packet has a reply and the pool serves the requests that are checked. */
  predicate Answered(o: Option<Output>, h: Header, t: Texts, a: Allocs)
    requires TextsOk(t)
  {
    Reply(h, t).Some? && (o.Some? || a.out) && a.packet && a.payload
  }

  /** The packet closes its connection. */
  predicate EndsConnection(o: Option<Output>, h: Header, a: Allocs) {
    MagicOk(h) && Lookup(h.pcmd, 0) == Some(Close) && (o.Some? || a.out)
  }

  ghost function OutputOf(b: Buf): Output
    requires b.Valid() && b.mem.Length < UINT
    reads b, b.mem
  {
    Output(b.mem.Length, b.Contents())
  }

  /** A request: the header received, the buffer of its packet, and the output.  It lives
      in the pool of its connection; `freed` tells that the pool was destroyed. */
  class Request {
    var h: Header
    const payload: Buf
    var out: Buf?
    var overrun: bool               // an append wrote past the output's store: undefined from here on
    ghost var replies: seq<Frame>   // the replies appended so far
    ghost var torn: bool            // whether an append of a reply was ever refused
    ghost var freed: bool

    ghost function OutBytes(): seq<byte>
      reads this, out, if out == null then {} else {out.mem}
      requires out != null ==> out.Valid()
    {
      if out == null then [] else out.Contents()
    }

    ghost function Out(): Option<Output>
      reads this, out, if out == null then {} else {out.mem}
      requires out != null ==> out.Valid() && out.mem.Length < UINT
    {
      if out == null then None else Some(OutputOf(out))
    }

    /** The output is the frames of the replies, each passing the daemon's own check. */
    ghost predicate Valid()
      reads this, out, if out == null then {} else {out.mem}
    {
      && !freed
      && (!overrun ==>
            && (out != null ==> out.Valid() && out.pos == 0 && out.mem.Length < UINT)
            && (forall f :: f in replies ==> WellFormed(f) && MagicOk(f.header))
            && (!torn ==> OutBytes() == Stream(replies)))
    }

    /** xdbd_adb_create_request, when the pool serves it: zeroed, with an empty packet. */
    constructor ()
      ensures Valid() && out == null && replies == [] && !torn && !overrun && h == Header(0, 0, 0, 0, 0, 0)
      ensures fresh(payload) && fresh(payload.mem) && payload.Valid() && payload.Contents() == []
      ensures payload.pos == 0 && payload.mem.Length == ADB_MAX_PACKET_SIZE
    {
      h, out, replies, torn, overrun, freed := Header(0, 0, 0, 0, 0, 0), null, [], false, false, false;
      payload := new Buf(ADB_MAX_PACKET_SIZE);
    }

    /** What a handler that built the reply `f` has done to the output. */
    twostate predicate Replied(f: Frame, a: Allocs)
      requires Valid() && old(Valid()) && !old(overrun) && old(out) != null && out != null
      reads this, out, if out == null then {} else {out.mem}
    {
      var o := old(OutputOf(out));
      && overrun == Overran(o, f, a)
      && (!overrun ==>
            && OutputOf(out) == Emitted(o, f, a)
            && torn == (old(torn) || !Whole(o, f, a))
            && replies == if Whole(o, f, a) then old(replies) + [f] else old(replies))
    }

    /** The first of the two appends every handler ends with. */
    method AppendHeader(b: Buf, bytes: seq<byte>, ok: bool) returns (r: Append)
      requires b.Valid() && b.pos == 0 && b.mem.Length < UINT
      modifies b, b.mem
      ensures b.mem == old(b.mem) || fresh(b.mem)
      ensures r == Appended(old(OutputOf(b)), bytes, ok).1
      ensures !r.Overrun? ==>
        b.Valid() && b.pos == 0 && b.mem.Length < UINT && OutputOf(b) == Appended(old(OutputOf(b)), bytes, ok).0
    {
      hide NewCapacity, AppendResult, AppendCost;
      KeptAll(OutputOf(b), |bytes|);
      CapacityBelow(b.mem.Length, b.last, |bytes|);
      r := b.AppendMem(bytes, ok);
    }

    /** The second. */
    method AppendBody(b: Buf, body: Buf, ok: bool) returns (r: Append)
      requires b.Valid() && b.pos == 0 && b.mem.Length < UINT && body.Valid() && body != b && body.mem != b.mem
      modifies b, b.mem
      ensures b.mem == old(b.mem) || fresh(b.mem)
      ensures r == Appended(old(OutputOf(b)), old(body.Contents()), ok).1
      ensures !r.Overrun? ==>
        b.Valid() && b.pos == 0 && b.mem.Length < UINT && OutputOf(b) == Appended(old(OutputOf(b)), old(body.Contents()), ok).0
    {
      hide NewCapacity, AppendResult;
      KeptAll(OutputOf(b), |body.Contents()|);
      CapacityBelow(b.mem.Length, b.last, |body.Contents()|);
      r := b.AppendBuf(body, ok);
    }

    /** Their results are not looked at; after an overrun the model stops. */
    method AppendParts(b: Buf, header: Header, body: Buf, a: Allocs) returns (overrun: bool)
      requires b.Valid() && b.pos == 0 && b.mem.Length < UINT && body.Valid() && body != b && body.mem != b.mem
      modifies b, b.mem
      ensures b.mem == old(b.mem) || fresh(b.mem)
      ensures overrun == Overran(old(OutputOf(b)), Frame(header, old(body.Contents())), a)
      ensures !overrun ==> b.Valid() && b.pos == 0 && b.mem.Length < UINT
      ensures !overrun ==> OutputOf(b) == Emitted(old(OutputOf(b)), Frame(header, old(body.Contents())), a)
    {
      hide EncodeHeader, Appended;
      var r := AppendHeader(b, EncodeHeader(header), a.header);
      if r.Overrun? {
        return true;
      }
      r := AppendBody(b, body, a.body);
      overrun := r.Overrun?;
    }

    /** Appends a reply; a refused growth is not noticed by the caller. */
    method Emit(header: Header, body: Buf, a: Allocs)
      requires Valid() && !overrun && out != null && body.Valid() && body != out && body.mem != out.mem
      requires MagicOk(header) && header.dlen == |body.Contents()|
      modifies this`replies, this`torn, this`overrun, out, out.mem
      ensures Valid() && (out.mem == old(out.mem) || fresh(out.mem))
      ensures Replied(Frame(header, old(body.Contents())), a)
    {
      hide EncodeHeader, MagicOk, Stream, Appended;
      ghost var f, o := Frame(header, body.Contents()), OutputOf(out);
      overrun := AppendParts(out, header, body, a);
      if Whole(o, f, a) {
        WholeBytes(o, f, a);
        StreamAppend(replies, f);
        replies := replies + [f];
      } else {
        torn := true;
      }
    }

    /** The reply record and its empty payload buffer. */
    method NewPayload(a: Allocs) returns (body: Buf?)
      ensures body == null <==> !a.packet || !a.payload
      ensures body != null ==> fresh(body) && fresh(body.mem) && body.Valid()
      ensures body != null ==> body.Contents() == [] && body.pos == 0 && body.mem.Length == ADB_MAX_PACKET_SIZE
    {
      if !a.packet {
        return null;
      }
      body := CreateBuf(ADB_MAX_PACKET_SIZE, a.payload);
    }

    method ProcessCnxn(t: Texts, a: Allocs) returns (rc: int)
      requires Valid() && !overrun && out != null && TextsOk(t)
      modifies this`replies, this`torn, this`overrun, out, out.mem
      ensures Valid() && (out.mem == old(out.mem) || fresh(out.mem))
      ensures rc == if a.packet && a.payload then XDBD_OK else XDBD_ERR
      ensures if rc == XDBD_ERR then unchanged(this) && OutputOf(out) == old(OutputOf(out))
              else Replied(Filled(PCMD_AUTH, ADB_AUTH_TOKEN, 0, t.token), a)
    {
      var body := NewPayload(a);
      if body == null {
        return XDBD_ERR;
      }
      var _ := body.AppendMem(t.token, false);
      Emit(Header(PCMD_AUTH, ADB_AUTH_TOKEN, 0, body.last - body.pos, 0, Complement(PCMD_AUTH)), body, a);
      rc := XDBD_OK;
    }

    method ProcessAuth(t: Texts, a: Allocs) returns (rc: int)
      requires Valid() && !overrun && out != null && TextsOk(t)
      modifies this`replies, this`torn, this`overrun, out, out.mem
      ensures Valid() && (out.mem == old(out.mem) || fresh(out.mem))
      ensures rc == if a.packet && a.payload then XDBD_OK else XDBD_ERR
      ensures if rc == XDBD_ERR then unchanged(this) && OutputOf(out) == old(OutputOf(out))
              else Replied(Filled(PCMD_CNXN, ADB_VERSION, ADB_MAX_PACKET_SIZE, Joined(t.banner)), a)
    {
      var body := NewPayload(a);
      if body == null {
        return XDBD_ERR;
      }
      AppendTexts(body, t.banner);
      Emit(Header(PCMD_CNXN, ADB_VERSION, ADB_MAX_PACKET_SIZE, body.last - body.pos, 0, Complement(PCMD_CNXN)), body, a);
      rc := XDBD_OK;
    }

    /** Appends the banner piece by piece; it fits the payload buffer, which never grows. */
    method AppendTexts(body: Buf, parts: seq<seq<byte>>)
      requires body.Valid() && body.Contents() == [] && body.pos == 0 && |Joined(parts)| <= body.mem.Length
      modifies body, body.mem
      ensures body.Valid() && body.mem == old(body.mem) && body.Contents() == Joined(parts)
    {
      var i := 0;
      assert parts[..|parts|] == parts;
      while i < |parts|
        invariant 0 <= i <= |parts| && body.Valid() && body.mem == old(body.mem) && body.pos == 0
        invariant body.Contents() == Joined(parts[..i])
      {
        JoinedPrefix(parts, i);
        var _ := body.AppendMem(parts[i], false);
        i := i + 1;
      }
    }

    /** The OKAY reply, which has no payload. */
    method SendOkay(h: Header, a: Allocs) returns (rc: int)
      requires Valid() && !overrun && out != null
      modifies this`replies, this`torn, this`overrun, out, out.mem
      ensures Valid() && (out.mem == old(out.mem) || fresh(out.mem))
      ensures rc == if a.packet && a.payload then XDBD_OK else XDBD_ERR
      ensures if rc == XDBD_ERR then unchanged(this) && OutputOf(out) == old(OutputOf(out))
              else Replied(Filled(PCMD_OKAY, 1, h.arg0, []), a)
    {
      var body := NewPayload(a);
      if body == null {
        return XDBD_ERR;
      }
      Emit(Header(PCMD_OKAY, 1, h.arg0, body.last - body.pos, 0, Complement(PCMD_OKAY)), body, a);
      rc := XDBD_OK;
    }

    /** An OPEN for stream 0 is refused; any other goes to the command table, whose one
        entry is taken without looking at the payload. */
    method ProcessOpen(h: Header, a: Allocs) returns (rc: int)
      requires Valid() && !overrun && out != null
      modifies this`replies, this`torn, this`overrun, out, out.mem
      ensures Valid() && (out.mem == old(out.mem) || fresh(out.mem))
      ensures rc == if h.arg0 != 0 && a.packet && a.payload then XDBD_OK else XDBD_ERR
      ensures if rc == XDBD_ERR then unchanged(this) && OutputOf(out) == old(OutputOf(out))
              else Replied(Filled(PCMD_OKAY, 1, h.arg0, []), a)
    {
      if h.arg0 == 0 {
        return XDBD_ERR;
      }
      rc := SendOkay(h, a);
    }

    method ProcessWrite(h: Header, t: Texts, a: Allocs) returns (rc: int)
      requires Valid() && !overrun && out != null && TextsOk(t)
      modifies this`replies, this`torn, this`overrun, out, out.mem
      ensures Valid() && (out.mem == old(out.mem) || fresh(out.mem))
      ensures rc == if a.packet && a.payload then XDBD_OK else XDBD_ERR
      ensures if rc == XDBD_ERR then unchanged(this) && OutputOf(out) == old(OutputOf(out))
              else Replied(Filled(PCMD_WRTE, 1, h.arg0, t.data), a)
    {
      var body := NewPayload(a);
      if body == null {
        return XDBD_ERR;
      }
      var _ := body.AppendMem(t.data, false);
      Emit(Header(PCMD_WRTE, 1, h.arg0, body.last - body.pos, 0, Complement(PCMD_WRTE)), body, a);
      rc := XDBD_OK;
    }

    /** Searches the dispatch table from the top. */
    method FindHandler(pcmd: word) returns (k: Option<Kind>)
      ensures FirstEntry(pcmd, 0, k)
    {
      var i := 0;
      while i < |PCMDS|
        invariant 0 <= i <= |PCMDS| && forall j :: 0 <= j < i ==> PCMDS[j].0 != pcmd
      {
        if PCMDS[i].0 == pcmd {
          return Some(PCMDS[i].1);
        }
        i := i + 1;
      }
      k := None;
    }

    /** The handlers that do not close the connection. */
    method Answer(k: Option<Kind>, t: Texts, a: Allocs) returns (rc: int)
      requires Valid() && !overrun && out != null && TextsOk(t) && MagicOk(h) && k == Lookup(h.pcmd, 0) && k != Some(Close)
      modifies this`replies, this`torn, this`overrun, out, out.mem
      ensures Valid() && (out.mem == old(out.mem) || fresh(out.mem))
      ensures rc == if Reply(h, t).Some? && a.packet && a.payload then XDBD_OK else XDBD_ERR
      ensures if rc == XDBD_OK then Replied(Reply(h, t).value, a)
              else unchanged(this) && OutputOf(out) == old(OutputOf(out))
    {
      hide Lookup, Filled, Joined, Replied, MagicOk, Complement, Stream, WellFormed;
      match k {
        case Some(Cnxn) => rc := ProcessCnxn(t, a);
        case Some(Auth) => rc := ProcessAuth(t, a);
        case Some(Open) => rc := ProcessOpen(h, a);
        case Some(Okay) => rc := SendOkay(h, a);
        case Some(Write) => rc := ProcessWrite(h, t, a);
        case _ => rc := XDBD_ERR;
      }
    }

    /** The output buffer, created with the first packet whose check word is right. */
    method OpenOutput(a: Allocs)
      requires Valid() && !overrun
      modifies this`out
      ensures Valid() && (out == old(out) || (old(out) == null && fresh(out) && fresh(out.mem)))
      ensures Out() == if old(out) == null then if a.out then Some(NEW_OUTPUT) else None else old(Out())
    {
      if out == null {
        out := CreateBuf(1024, a.out);
      }
    }
  }

  lemma KeptAll(o: Output, n: nat)
    ensures Kept(o.bytes, o.cap - |o.bytes|, n) == o.bytes
  {
  }

  lemma CapacityBelow(cap: nat, size: nat, len: nat)
    ensures NewCapacity(cap, size, len) < UINT
  {
  }

  lemma WholeBytes(o: Output, f: Frame, a: Allocs)
    requires Whole(o, f, a)
    ensures Emitted(o, f, a).bytes == o.bytes + Bytes(f)
  {
    hide EncodeHeader, NewCapacity, AppendResult;
    assert o.bytes + EncodeHeader(f.header) + f.payload == o.bytes + Bytes(f);
  }

  lemma CloseUnanswered(h: Header, t: Texts)
    requires TextsOk(t)
    ensures Lookup(h.pcmd, 0) == Some(Close) ==> Reply(h, t) == None
  {
  }

  /** What closes a connection: a CLSE with a right check word, unless the output the packet
      would be answered in cannot be created. */
  lemma WhatCloses(o: Option<Output>, h: Header, a: Allocs)
    ensures EndsConnection(o, h, a) <==> h.pcmd == 0x45534c43 && h.magic + h.pcmd == 0xffff_ffff && (o.Some? || a.out)
  {
  }

  /** The output is created with the first packet whose check word is right, if the pool serves. */
  lemma WhatOpens(h: Header, t: Texts, a: Allocs)
    requires TextsOk(t)
    ensures Process(None, h, t, a).Some? <==> h.magic + h.pcmd == 0xffff_ffff && a.out
  {
    hide Reply, Emitted;
  }

  lemma {:induction false} JoinedPrefix(parts: seq<seq<byte>>, i: nat)
    requires i < |parts|
    ensures |Joined(parts[..i])| + |parts[i]| <= |Joined(parts)|
    ensures Joined(parts[..i + 1]) == Joined(parts[..i]) + parts[i]
    decreases |parts|
  {
    assert parts[..i + 1][..i] == parts[..i];
    if i == |parts| - 1 {
      assert parts[..i + 1] == parts;
    } else {
      var rest := parts[..|parts| - 1];
      assert rest[..i] == parts[..i] && rest[..i + 1] == parts[..i + 1];
      JoinedPrefix(rest, i);
    }
  }

  // ------------------------------------------------------- a run of packets

  /** The output after a run of packets on one request, none of them closing. */
  function Run(items: seq<(Header, Allocs)>, t: Texts): Option<Output>
    requires TextsOk(t)
  {
    if items == [] then None else
    var n := |items| - 1;
    Process(Run(items[..n], t), items[n].0, t, items[n].1)
  }

  /** The replies to a run of packets, in order. */
  function Answers(items: seq<(Header, Allocs)>, t: Texts): seq<Frame>
    requires TextsOk(t)
  {
    if items == [] then [] else
    var n := |items| - 1;
    var (h, a) := items[n];
    Answers(items[..n], t) + if Answered(Run(items[..n], t), h, t, a) then [Reply(h, t).value] else []
  }

  /** Every reply of a run fitted when it was appended. */
  ghost predicate AllFit(items: seq<(Header, Allocs)>, t: Texts)
    requires TextsOk(t)
  {
    if items == [] then true else
    var n := |items| - 1;
    var o, (h, a) := Run(items[..n], t), items[n];
    && AllFit(items[..n], t)
    && (Answered(o, h, t, a) ==> Fits(if o.None? then NEW_OUTPUT else o.value, |Reply(h, t).value.payload|, a))
  }

  /** The packet at `i` makes an append write past the output's store. */
  ghost predicate OverrunsAt(items: seq<(Header, Allocs)>, t: Texts, i: nat)
    requires TextsOk(t) && i < |items|
  {
    var o, (h, a) := Run(items[..i], t), items[i];
    Answered(o, h, t, a) && Overran(if o.None? then NEW_OUTPUT else o.value, Reply(h, t).value, a)
  }

  function BytesOf(o: Option<Output>): seq<byte> {
    if o.None? then [] else o.value.bytes
  }

  lemma EmittedLength(o: Output, f: Frame, a: Allocs)
    ensures |Emitted(o, f, a).bytes| <= |o.bytes| + |Bytes(f)|
    ensures |Emitted(o, f, a).bytes| == |o.bytes| + |Bytes(f)| <==> Whole(o, f, a)
  {
    hide EncodeHeader, NewCapacity, AppendResult;
    var p := Appended(o, EncodeHeader(f.header), a.header).0;
    EmittedParts(o, f, a);
    AppendedIs(o, EncodeHeader(f.header), a.header);
    AppendedIs(p, f.payload, a.body);
    NothingTaken(p, a.body);
  }

  /** The output is never longer than the answers, and as long only if all of them fitted. */
  lemma {:induction false} RunLength(items: seq<(Header, Allocs)>, t: Texts)
    requires TextsOk(t)
    ensures var o := Run(items, t); var n := |Stream(Answers(items, t))|;
      && |BytesOf(o)| <= n
      && (|BytesOf(o)| == n ==> AllFit(items, t))
      && (AllFit(items, t) ==> BytesOf(o) == Stream(Answers(items, t)))
  {
    hide Reply, TextsOk, Emitted, Whole, Fits, Bytes, MagicOk;
    if items != [] {
      var n := |items| - 1;
      var (h, a) := items[n];
      var before := Run(items[..n], t);
      RunLength(items[..n], t);
      var o := if before.None? then NEW_OUTPUT else before.value;
      if Answered(before, h, t, a) {
        var f := Reply(h, t).value;
        StreamAppend(Answers(items[..n], t), f);
        EmittedLength(o, f, a);
        WholeIffFits(o, f, a);
        if Whole(o, f, a) { WholeBytes(o, f, a); }
      } else {
        assert Answers(items, t) == Answers(items[..n], t);
      }
    }
  }

  lemma RunNone(items: seq<(Header, Allocs)>, t: Texts)
    requires TextsOk(t) && items == []
    ensures Run(items, t) == None
  {
  }

  lemma RunStep(items: seq<(Header, Allocs)>, t: Texts, i: nat)
    requires TextsOk(t) && i < |items|
    ensures Run(items[..i + 1], t) == Process(Run(items[..i], t), items[i].0, t, items[i].1)
  {
    hide Process;
    assert items[..i + 1][..i] == items[..i];
  }

  /** After any run of packets, whatever the pool serves, none of them overrunning the store:
      the output reads back as exactly the replies if and only if every reply fitted, by the
      room, its length and the pool's answers, when it was appended. */
  lemma RunIsDecodable(items: seq<(Header, Allocs)>, t: Texts)
    requires TextsOk(t) && forall i :: 0 <= i < |items| ==> !OverrunsAt(items, t, i)
    ensures Parse(BytesOf(Run(items, t))) == Some(Answers(items, t)) <==> AllFit(items, t)
    ensures forall f :: f in Answers(items, t) ==> WellFormed(f) && MagicOk(f.header)
  {
    hide Parse, Run, Answers, AllFit, MagicOk, WellFormed, TextsOk;
    RunLength(items, t);
    AnswersFormed(items, t);
    ParseIffStream(BytesOf(Run(items, t)), Answers(items, t));
  }

  lemma {:induction false} AnswersFormed(items: seq<(Header, Allocs)>, t: Texts)
    requires TextsOk(t)
    ensures forall f :: f in Answers(items, t) ==> WellFormed(f) && MagicOk(f.header)
  {
    hide MagicOk, WellFormed, TextsOk, Run;
    if items != [] { AnswersFormed(items[..|items| - 1], t); }
  }

  /** Reading the output of a request none of whose appends failed gives back exactly the
      replies, each of which passes the check the daemon applies to what it receives. */
  lemma OutputIsDecodable(r: Request)
    requires r.Valid() && !r.torn && !r.overrun
    ensures Parse(r.OutBytes()) == Some(r.replies)
    ensures forall f :: f in r.replies ==> MagicOk(f.header) && f.header.dlen == |f.payload|
  {
    hide MagicOk, Stream, Parse;
    ParseIffStream(r.OutBytes(), r.replies);
  }

  /** A banner of 1001 bytes whose growth the pool refuses: the output is a header without
      its payload, which cannot be read. */
  method TornBanner() returns (r: Request)
    ensures fresh(r) && r.Valid() && r.torn && !r.overrun && |r.OutBytes()| == HEADER_SIZE && Parse(r.OutBytes()) == None
  {
    hide Parse, EncodeHeader, Whole, Emitted, Overran, AppendResult, AppendCost, NewCapacity;
    var part := seq(1001, _ => 0 as byte);
    var t, a := Texts([], [part], []), Allocs(true, true, true, true, false);
    assert Joined(t.banner[..0]) == [];
    assert Joined(t.banner) == part;
    r := new Request();
    r.OpenOutput(a);
    FirstReply(Filled(PCMD_CNXN, ADB_VERSION, ADB_MAX_PACKET_SIZE, part), a);
    var _ := r.ProcessAuth(t, a);
  }
}
