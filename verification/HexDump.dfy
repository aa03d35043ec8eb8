/** The hex dump of a byte string into a growing buffer. */
module HexDump {
  import opened Buf

  function Digit(n: nat): byte
    requires n < 16
  {
    if n < 10 then '0' as int + n else 'a' as int + n - 10
  }

  function Value(c: byte): nat {
    if c <= '9' as int then (c - '0' as int) % 16 else (c - 'a' as int + 10) % 16
  }

  /** What `%02x` prints. */
  function Hex2(b: byte): seq<byte> {
    [Digit(b / 16), Digit(b % 16)]
  }

  function HexOf(s: seq<byte>): seq<byte> {
    if s == [] then [] else HexOf(s[..|s| - 1]) + Hex2(s[|s| - 1])
  }

  /** Reading pairs of digits as bytes. */
  function Unhex(h: seq<byte>): seq<byte> {
    if |h| < 2 then [] else Unhex(h[..|h| - 2]) + [(16 * Value(h[|h| - 2]) + Value(h[|h| - 1])) % 256]
  }

  /** A dump is twice as long as its input and reads back as the input. */
  lemma {:induction false} HexRoundTrip(s: seq<byte>)
    ensures |HexOf(s)| == 2 * |s| && Unhex(HexOf(s)) == s
  {
    hide Digit, Value;
    if s != [] {
      var n := |s| - 1;
      HexRoundTrip(s[..n]);
      var h := HexOf(s);
      assert h[..|h| - 2] == HexOf(s[..n]);
      Pair(s[n]);
      assert s == s[..n] + [s[n]];
    }
  }

  const DIGITS := "0123456789abcdef"

  lemma DigitIs(n: nat)
    requires n < 16
    ensures Digit(n) == DIGITS[n] as int
  {
  }

  /** `h` is the lower-case hexadecimal text of `s`, the high digit of each byte first. */
  ghost predicate IsHexOf(h: seq<byte>, s: seq<byte>) {
    && |h| == 2 * |s|
    && forall i :: 0 <= i < |s| ==> h[2 * i] == DIGITS[s[i] / 16] as int && h[2 * i + 1] == DIGITS[s[i] % 16] as int
  }

  lemma {:induction false} HexDigits(s: seq<byte>)
    ensures IsHexOf(HexOf(s), s)
  {
    hide Digit;
    if s != [] {
      var n := |s| - 1;
      HexDigits(s[..n]);
      DigitIs(s[n] / 16);
      DigitIs(s[n] % 16);
      var h := HexOf(s);
      forall i | 0 <= i < |s| ensures h[2 * i] == DIGITS[s[i] / 16] as int && h[2 * i + 1] == DIGITS[s[i] % 16] as int {
        if i < n {
          assert h[2 * i] == HexOf(s[..n])[2 * i] && h[2 * i + 1] == HexOf(s[..n])[2 * i + 1];
          assert s[..n][i] == s[i];
        }
      }
    }
  }

  lemma ValueDigit(n: nat)
    requires n < 16
    ensures Value(Digit(n)) == n
  {
  }

  lemma Pair(b: byte)
    ensures (16 * Value(Hex2(b)[0]) + Value(Hex2(b)[1])) % 256 == b
  {
    hide Value, Digit;
    ValueDigit(b / 16);
    ValueDigit(b % 16);
  }

  /** The capacity of the dump's buffer after `i` bytes, and how often it has grown. */
  function CapAt(i: nat): nat {
    if i == 0 then 1024
    else if 2 * i <= CapAt(i - 1) then CapAt(i - 1)
    else NewCapacity(CapAt(i - 1), 2 * (i - 1), 2)
  }

  function Growths(i: nat): nat {
    if i == 0 then 0 else Growths(i - 1) + if 2 * i <= CapAt(i - 1) then 0 else 1
  }

  function Pow2(n: nat): nat {
    if n == 0 then 1 else 2 * Pow2(n - 1)
  }

  /** Below 2^31 digits each growth doubles the buffer, so that it grows once for each doubling
      that 2n digits need beyond 1024, and never up to 512 bytes. */
  lemma {:induction false} EachGrowthDoubles(n: nat)
    requires n <= 0x4000_0000
    ensures CapAt(n) == 1024 * Pow2(Growths(n))
    ensures 2 * n <= CapAt(n) && (Growths(n) > 0 ==> CapAt(n) < 4 * n)
    ensures Growths(n) == 0 <==> n <= 512
  {
    hide NewCapacity;
    if n > 0 {
      EachGrowthDoubles(n - 1);
      if 2 * n > CapAt(n - 1) {
        PlainCapacity(CapAt(n - 1), 2 * (n - 1), 2);
      }
    }
  }

  lemma {:induction false} GrowthsMonotone(i: nat, n: nat)
    requires i <= n
    ensures Growths(i) <= Growths(n)
    decreases n
  {
    hide CapAt;
    if i < n { GrowthsMonotone(i, n - 1); }
  }

  /** The pool's answer to a growth; it refuses what it is not known to serve. */
  predicate Served(grown: seq<bool>, g: nat) {
    g < |grown| && grown[g]
  }

  /** xdbd_dump_hex; `created` says whether the pool serves the buffer, `grown` its answers to
      the growths.  A dump of 2^32 digits or more ends in a request for no bytes and fails. */
  method DumpHex(str: seq<byte>, created: bool, grown: seq<bool>) returns (b: Buf?)
    ensures b != null <==>
      created && |str| < 0x8000_0000 && forall g: nat :: g < Growths(|str|) ==> Served(grown, g)
    ensures b != null ==> b.Valid() && b.Contents() == HexOf(str)
    ensures b != null ==> IsHexOf(b.Contents(), str) && Unhex(b.Contents()) == str
  {
    hide IsHexOf, AppendResult, Kept, NewCapacity, AppendCost, Unhex;
    b := CreateBuf(1024, created);
    if b == null {
      return;
    }
    var i, g := 0, 0;
    while i < |str|
      invariant 0 <= i <= |str| && b != null && fresh(b) && fresh(b.mem) && b.Valid()
      invariant b.pos == 0 && b.last == 2 * i && b.Contents() == HexOf(str[..i])
      invariant b.mem.Length == CapAt(i) < UINT && g == Growths(i) && i < 0x8000_0000
      invariant forall l: nat :: l < g ==> Served(grown, l)
    {
      assert str[..i + 1][..i] == str[..i];
      var ok := Served(grown, g);
      PlainAppend(b.mem.Length - b.last, b.mem.Length, b.Contents(), 2, ok);
      GrowthsMonotone(i + 1, |str|);
      var growing := b.mem.Length - b.last < 2;
      var r := b.AppendMem(Hex2(str[i]), ok);
      if r.Refused? {
        return null;
      }
      g := if growing then g + 1 else g;
      i := i + 1;
    }
    assert str[..i] == str;
    HexRoundTrip(str);
    HexDigits(str);
  }
}
