/** The message format of AOSP adb `protocol.txt`, section "protocol overview and
    basics": six little-endian 32-bit words followed by `dlen` bytes. */
module Wire {
  import opened Buf

  type word = x: int | 0 <= x < UINT

  const HEADER_SIZE: nat := 24

  datatype Header = Header(pcmd: word, arg0: word, arg1: word, dlen: word, dchecksum: word, magic: word)

  datatype Option<T> = None | Some(value: T)

  function Encode32(w: word): (b: seq<byte>)
    ensures |b| == 4
  {
    var x: int := w;
    [x % 256, x / 256 % 256, x / 65536 % 256, x / 16777216]
  }

  function Decode32(b: seq<byte>): word
    requires |b| == 4
  {
    b[0] as int + 256 * b[1] as int + 65536 * b[2] as int + 16777216 * b[3] as int
  }

  lemma DivTwice(x: nat)
    ensures x / 65536 == x / 256 / 256 && x / 16777216 == x / 65536 / 256
  {
  }

  lemma DecodeEncode32(w: word)
    ensures Decode32(Encode32(w)) == w
  {
    var x: nat := w;
    DivTwice(x);
    assert x == 256 * (x / 256) + x % 256;
    assert x / 256 == 256 * (x / 65536) + x / 256 % 256;
    assert x / 65536 == 256 * (x / 16777216) + x / 65536 % 256;
  }

  lemma Digit(high: nat, low: byte)
    ensures (256 * high + low) % 256 == low && (256 * high + low) / 256 == high
  {
  }

  lemma Digits(a: byte, b: byte, c: byte, d: byte, w: int)
    requires w == a + 256 * b + 65536 * c + 16777216 * d
    ensures w % 256 == a && w / 256 % 256 == b && w / 65536 % 256 == c && w / 16777216 == d
  {
    var y: nat := c + 256 * d;
    var x: nat := b + 256 * y;
    Digit(x, a);
    Digit(y, b);
    Digit(d, c);
    DivTwice(w);
  }

  lemma EncodeDecode32(b: seq<byte>)
    requires |b| == 4
    ensures Encode32(Decode32(b)) == b
  {
    Digits(b[0], b[1], b[2], b[3], Decode32(b));
    assert Encode32(Decode32(b)) == [b[0], b[1], b[2], b[3]];
  }

  /** The bytes of the packed header record. */
  function EncodeHeader(h: Header): (b: seq<byte>)
    ensures |b| == HEADER_SIZE
  {
    Encode32(h.pcmd) + Encode32(h.arg0) + Encode32(h.arg1) + Encode32(h.dlen) + Encode32(h.dchecksum) + Encode32(h.magic)
  }

  /** Copying 24 bytes over the header record. */
  function DecodeHeader(b: seq<byte>): Header
    requires |b| == HEADER_SIZE
  {
    Header(Decode32(b[0..4]), Decode32(b[4..8]), Decode32(b[8..12]),
           Decode32(b[12..16]), Decode32(b[16..20]), Decode32(b[20..24]))
  }

  lemma DecodeEncodeHeader(h: Header)
    ensures DecodeHeader(EncodeHeader(h)) == h
  {
    hide Encode32, Decode32;
    var b := EncodeHeader(h);
    assert b[0..4] == Encode32(h.pcmd) && b[4..8] == Encode32(h.arg0) && b[8..12] == Encode32(h.arg1);
    assert b[12..16] == Encode32(h.dlen) && b[16..20] == Encode32(h.dchecksum) && b[20..24] == Encode32(h.magic);
    DecodeEncode32(h.pcmd);
    DecodeEncode32(h.arg0);
    DecodeEncode32(h.arg1);
    DecodeEncode32(h.dlen);
    DecodeEncode32(h.dchecksum);
    DecodeEncode32(h.magic);
  }

  lemma EncodeDecodeHeader(b: seq<byte>)
    requires |b| == HEADER_SIZE
    ensures EncodeHeader(DecodeHeader(b)) == b
  {
    hide Encode32, Decode32;
    EncodeDecode32(b[0..4]);
    EncodeDecode32(b[4..8]);
    EncodeDecode32(b[8..12]);
    EncodeDecode32(b[12..16]);
    EncodeDecode32(b[16..20]);
    EncodeDecode32(b[20..24]);
    assert b == b[0..4] + b[4..8] + b[8..12] + b[12..16] + b[16..20] + b[20..24];
  }

  /** The word that starts at byte `i`, least significant byte first. */
  function WordAt(b: seq<byte>, i: nat): int
    requires i + 4 <= |b|
  {
    b[i] as int + 256 * b[i + 1] as int + 65536 * b[i + 2] as int + 16777216 * b[i + 3] as int
  }

  /** Where the fields of a header lie on the wire. */
  lemma HeaderLayout(h: Header)
    ensures var b := EncodeHeader(h);
      && WordAt(b, 0) == h.pcmd && WordAt(b, 4) == h.arg0 && WordAt(b, 8) == h.arg1
      && WordAt(b, 12) == h.dlen && WordAt(b, 16) == h.dchecksum && WordAt(b, 20) == h.magic
  {
    hide Encode32, EncodeHeader;
    var b := EncodeHeader(h);
    DecodeEncodeHeader(h);
    assert DecodeHeader(b).arg0 == Decode32(b[4..8]) && DecodeHeader(b).magic == Decode32(b[20..24]);
  }

  // -------------------------------------------------------- command words

  /** PCMD_ASCII on four seven-bit characters. */
  function PcmdAscii(s: string): word
    requires |s| == 4 && forall i :: 0 <= i < 4 ==> s[i] as int < 128
  {
    s[0] as int + 256 * (s[1] as int) + 65536 * (s[2] as int) + 16777216 * (s[3] as int)
  }

  /** The command word is its name when read off the wire. */
  lemma PcmdOnTheWire(s: string)
    requires |s| == 4 && forall i :: 0 <= i < 4 ==> s[i] as int < 128
    ensures Encode32(PcmdAscii(s)) == [s[0] as int, s[1] as int, s[2] as int, s[3] as int]
  {
    EncodeDecode32([s[0] as int, s[1] as int, s[2] as int, s[3] as int]);
  }

  // --------------------------------------------------------------- frames

  datatype Frame = Frame(header: Header, payload: seq<byte>)

  predicate WellFormed(f: Frame) {
    f.header.dlen == |f.payload|
  }

  function Bytes(f: Frame): seq<byte> {
    EncodeHeader(f.header) + f.payload
  }

  /** Frames one behind the other. */
  function Stream(fs: seq<Frame>): seq<byte> {
    if fs == [] then [] else Bytes(fs[0]) + Stream(fs[1..])
  }

  /** Reading a byte string as frames: a header, `dlen` bytes, and so on to the end. */
  function Parse(b: seq<byte>): Option<seq<Frame>>
    decreases |b|
  {
    if b == [] then Some([])
    else if |b| < HEADER_SIZE then None
    else
      var h := DecodeHeader(b[..HEADER_SIZE]);
      var end := HEADER_SIZE + h.dlen;
      if |b| < end then None
      else
        var rest := Parse(b[end..]);
        if rest.None? then None else Some([Frame(h, b[HEADER_SIZE..end])] + rest.value)
  }

  lemma ParseFrame(f: Frame, b: seq<byte>)
    requires WellFormed(f)
    ensures Parse(Bytes(f) + b) == if Parse(b).None? then None else Some([f] + Parse(b).value)
  {
    hide EncodeHeader, DecodeHeader;
    var all := Bytes(f) + b;
    assert all[..HEADER_SIZE] == EncodeHeader(f.header);
    DecodeEncodeHeader(f.header);
    assert all[HEADER_SIZE..HEADER_SIZE + |f.payload|] == f.payload;
    assert all[HEADER_SIZE + |f.payload|..] == b;
  }

  /** What follows complete frames is read independently of them. */
  lemma {:induction false} ParseBehind(fs: seq<Frame>, b: seq<byte>)
    requires forall f :: f in fs ==> WellFormed(f)
    ensures Parse(Stream(fs) + b) == if Parse(b).None? then None else Some(fs + Parse(b).value)
  {
    hide Bytes, WellFormed, Parse;
    if fs == [] {
      assert Stream(fs) + b == b;
      if Parse(b).Some? { assert fs + Parse(b).value == Parse(b).value; }
    } else {
      var rest := fs[1..];
      ParseBehind(rest, b);
      assert Stream(fs) + b == Bytes(fs[0]) + (Stream(rest) + b);
      ParseFrame(fs[0], Stream(rest) + b);
      if Parse(b).Some? { assert [fs[0]] + (rest + Parse(b).value) == fs + Parse(b).value; }
    }
  }

  lemma ParseUnfold(b: seq<byte>)
    requires b != [] && Parse(b).Some?
    ensures |b| >= HEADER_SIZE
    ensures var h := DecodeHeader(b[..HEADER_SIZE]); var end := HEADER_SIZE + h.dlen;
      && end <= |b| && Parse(b[end..]).Some?
      && Parse(b).value == [Frame(h, b[HEADER_SIZE..end])] + Parse(b[end..]).value
  {
    hide DecodeHeader;
  }

  lemma {:induction false} StreamOfParse(b: seq<byte>)
    requires Parse(b).Some?
    ensures Stream(Parse(b).value) == b && forall f :: f in Parse(b).value ==> WellFormed(f)
    decreases |b|
  {
    hide EncodeHeader, DecodeHeader, Parse;
    if b == [] {
      ParseNothing();
    } else {
      ParseUnfold(b);
      var head := b[..HEADER_SIZE];
      var h := DecodeHeader(head);
      var end := HEADER_SIZE + h.dlen;
      StreamOfParse(b[end..]);
      EncodeDecodeHeader(head);
      var f, fs := Frame(h, b[HEADER_SIZE..end]), Parse(b).value;
      assert fs[1..] == Parse(b[end..]).value;
      assert b == head + b[HEADER_SIZE..end] + b[end..];
    }
  }

  lemma ParseNothing()
    ensures Parse([]) == Some([])
  {
  }

  /** Reading inverts writing, in both directions. */
  lemma ParseIffStream(b: seq<byte>, fs: seq<Frame>)
    ensures Parse(b) == Some(fs) <==> b == Stream(fs) && forall f :: f in fs ==> WellFormed(f)
  {
    if Parse(b) == Some(fs) { StreamOfParse(b); }
    if b == Stream(fs) && forall f :: f in fs ==> WellFormed(f) {
      ParseBehind(fs, []);
      assert Stream(fs) + [] == b && fs + [] == fs;
    }
  }

  lemma {:induction false} StreamAppend(fs: seq<Frame>, f: Frame)
    ensures Stream(fs + [f]) == Stream(fs) + Bytes(f)
  {
    hide Bytes;
    if fs == [] {
      assert [f][1..] == [];
    } else {
      assert (fs + [f])[1..] == fs[1..] + [f];
      StreamAppend(fs[1..], f);
    }
  }

  /** When one of the two appends of a reply fails, what is sent is readable exactly if
      nothing was lost: both parts are there, neither is, the payload is empty anyway, or
      the payload on its own happens to read as frames. */
  lemma ReadableWhen(fs: seq<Frame>, f: Frame, headerDone: bool, payloadDone: bool)
    requires WellFormed(f) && forall g :: g in fs ==> WellFormed(g)
    ensures var b := Stream(fs) + (if headerDone then EncodeHeader(f.header) else []) + (if payloadDone then f.payload else []);
      Parse(b).Some? <==>
        if headerDone then payloadDone || f.payload == [] else !payloadDone || Parse(f.payload).Some?
  {
    hide EncodeHeader, DecodeHeader;
    var tail := (if headerDone then EncodeHeader(f.header) else []) + (if payloadDone then f.payload else []);
    assert Stream(fs) + tail
        == Stream(fs) + (if headerDone then EncodeHeader(f.header) else []) + (if payloadDone then f.payload else []);
    ParseBehind(fs, tail);
    if headerDone {
      if payloadDone || f.payload == [] {
        assert tail == Bytes(f) + [];
        ParseFrame(f, []);
      } else {
        assert tail == EncodeHeader(f.header) && tail[..HEADER_SIZE] == tail;
        DecodeEncodeHeader(f.header);
      }
    } else {
      assert tail == if payloadDone then f.payload else [];
    }
  }
}
