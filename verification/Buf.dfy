/** The growable byte buffer.  `mem` is the stretch from `start` to `end`; `pos` and
    `last` are offsets from `start`.  Sizes in the growth step are 32-bit unsigned. */
module Buf {

  type byte = x: int | 0 <= x < 256

  const UINT: nat := 0x1_0000_0000

  /** The capacity asked of the pool when `len` bytes do not fit behind `size` bytes in a
      buffer of `cap`: doubling and the sum both wrap, the comparison does not. */
  function NewCapacity(cap: nat, size: nat, len: nat): nat {
    var doubled := cap * 2 % UINT;
    if doubled < size % UINT + len then (size % UINT + len) % UINT else doubled
  }

  /** What an append comes to.  On an overrun the code writes past the new store, and what
      the program does then is not modelled. */
  datatype Append = Done | Refused | Overrun

  /** Appending `len` bytes behind `size` unread ones with `room` behind them; `ok` says
      whether the pool serves a growth.  A request for no bytes is refused. */
  function AppendResult(room: nat, cap: nat, size: nat, len: nat, ok: bool): Append {
    if len <= room then Done else
    var capacity := NewCapacity(cap, size, len);
    if capacity == 0 || !ok then Refused
    else if capacity < size % UINT + len then Overrun
    else Done
  }

  /** The bytes a growth carries over: their number is truncated to 32 bits. */
  function Kept(content: seq<byte>, room: nat, len: nat): seq<byte> {
    if len <= room then content else content[..|content| % UINT]
  }

  /** The new capacity holds everything exactly when the total is below 2^32, even if the
      doubling wraps; a total of exactly 2^32 asks the pool for nothing, which it refuses. */
  lemma CapacityHolds(cap: nat, size: nat, len: nat)
    requires len > 0
    ensures NewCapacity(cap, size, len) >= size + len <==> size + len < UINT
    ensures size + len < UINT ==> NewCapacity(cap, size, len) > 0
    ensures size + len == UINT ==> NewCapacity(cap, size, len) == 0
  {
  }

  /** A growing append does what it should exactly when the pool serves it and the total is
      below 2^32.  From there on it is refused, overruns the new store, or, behind 2^32
      unread bytes or more, silently drops all but the remainder of them. */
  lemma AppendIsRight(room: nat, cap: nat, content: seq<byte>, len: nat, ok: bool)
    requires room < len
    ensures AppendResult(room, cap, |content|, len, ok).Done? && Kept(content, room, len) == content
      <==> ok && |content| + len < UINT
    ensures |content| + len < UINT ==> !AppendResult(room, cap, |content|, len, ok).Overrun?
    ensures ok && |content| < UINT < |content| + len < 2 * UINT ==> AppendResult(room, cap, |content|, len, ok).Overrun?
  {
    CapacityHolds(cap, |content|, len);
    if |content| >= UINT {
      assert |content| % UINT < |content|;
    }
  }

  /** Up to a total of 2^32 an append never overruns and drops nothing. */
  lemma PlainAppend(room: nat, cap: nat, content: seq<byte>, len: nat, ok: bool)
    requires |content| + len <= UINT
    ensures AppendResult(room, cap, |content|, len, ok) ==
      if len <= room || (ok && |content| + len < UINT) then Done else Refused
    ensures AppendResult(room, cap, |content|, len, ok).Done? ==> Kept(content, room, len) == content
    ensures room < len && |content| + len < UINT ==> |content| + len <= NewCapacity(cap, |content|, len) < UINT
  {
    if room < len {
      CapacityHolds(cap, |content|, len);
    }
  }

  // ------------------------------------------------------ amortised cost

  /** An append-only buffer's capacity and size, the bytes its growths have copied, and
      the total of all backing stores ever allocated for it. */
  datatype Cost = Cost(cap: nat, size: nat, moved: nat, total: nat)

  function AppendCost(c: Cost, len: nat): Cost {
    if len <= c.cap - c.size then c.(size := c.size + len) else
    var cap := NewCapacity(c.cap, c.size, len);
    Cost(cap, c.size + len, c.moved + c.size, c.total + cap)
  }

  function AppendCosts(c: Cost, lens: seq<nat>): Cost {
    if lens == [] then c else AppendCost(AppendCosts(c, lens[..|lens| - 1]), lens[|lens| - 1])
  }

  /** Every growth starts from a capacity below 2^31 and ends with a size below 2^32. */
  ghost predicate NoWrap(c: Cost, lens: seq<nat>) {
    forall i :: 0 <= i < |lens| ==>
      var d := AppendCosts(c, lens[..i]);
      d.cap * 2 < UINT && d.size + lens[i] < UINT
  }

  ghost predicate Paid(c: Cost, cap0: nat) {
    && c.size <= c.cap && cap0 <= c.cap
    && c.moved <= c.cap - cap0
    && (c.cap == cap0 || c.cap <= 2 * c.size)
    && c.total <= 2 * c.cap
  }

  /** Without wrap-around the new capacity is the larger of twice the old and the need. */
  lemma PlainCapacity(cap: nat, size: nat, len: nat)
    requires cap * 2 < UINT && size + len < UINT
    ensures NewCapacity(cap, size, len) == if cap * 2 < size + len then size + len else cap * 2
  {
  }

  lemma AppendPaid(c: Cost, cap0: nat, len: nat)
    requires Paid(c, cap0) && c.cap * 2 < UINT && c.size + len < UINT
    ensures Paid(AppendCost(c, len), cap0)
  {
    hide NewCapacity;
    PlainCapacity(c.cap, c.size, len);
  }

  /** Any number of appends to a fresh buffer copies at most the capacity gained, keeps
      the capacity within the larger of the initial one and twice the content, and
      allocates at most twice the final capacity in all. */
  lemma {:induction false} GrowthIsAmortised(cap0: nat, lens: seq<nat>)
    requires NoWrap(Cost(cap0, 0, 0, cap0), lens)
    ensures Paid(AppendCosts(Cost(cap0, 0, 0, cap0), lens), cap0)
  {
    if lens != [] {
      var n := |lens| - 1;
      forall i | 0 <= i < n ensures lens[..n][..i] == lens[..i] { }
      GrowthIsAmortised(cap0, lens[..n]);
      AppendPaid(AppendCosts(Cost(cap0, 0, 0, cap0), lens[..n]), cap0, lens[n]);
    }
  }

  // ------------------------------------------------------------ the buffer

  class Buf {
    var mem: array<byte>
    var pos: nat
    var last: nat
    ghost var moved: nat
    ghost var total: nat

    ghost predicate Valid()
      reads this
    {
      pos <= last <= mem.Length
    }

    ghost function Contents(): seq<byte>
      requires Valid()
      reads this, mem
    {
      mem[pos..last]
    }

    ghost function Spent(): Cost
      reads this
    {
      Cost(mem.Length, last, moved, total)
    }

    /** An empty buffer over fresh memory that is not cleared. */
    constructor (size: nat)
      ensures Valid() && fresh(mem) && mem.Length == size && pos == last == 0
      ensures Contents() == [] && Spent() == Cost(size, 0, 0, size)
    {
      mem := new byte[size];
      pos, last := 0, 0;
      moved, total := 0, size;
    }

    /** xdbd_reset_buf, whatever the pointers were. */
    method Reset()
      modifies this
      ensures Valid() && mem == old(mem) && pos == last == 0 && Contents() == []
      ensures moved == old(moved) && total == old(total)
    {
      pos, last := 0, 0;
    }

    /** xdbd_buf_append_mem; `ok` says whether the pool serves a growth. */
    method AppendMem(data: seq<byte>, ok: bool) returns (r: Append)
      requires Valid()
      modifies this, mem
      ensures Valid()
      ensures r == AppendResult(old(mem.Length - last), old(mem.Length), old(last - pos), |data|, ok)
      ensures |data| <= old(mem.Length - last) ==> mem == old(mem) && pos == old(pos)
      ensures r.Done? && |data| > old(mem.Length - last) ==>
        fresh(mem) && pos == 0 && mem.Length == NewCapacity(old(mem.Length), old(last - pos), |data|)
      ensures r.Done? ==> Contents() == Kept(old(Contents()), old(mem.Length - last), |data|) + data
      ensures r.Refused? ==> unchanged(this) && unchanged(mem)
      ensures mem == old(mem) || fresh(mem)
      ensures r.Done? && old(pos) == 0 && old(last) < UINT ==> pos == 0 && Spent() == AppendCost(old(Spent()), |data|)
    {
      hide NewCapacity;
      if |data| > mem.Length - last {
        var size := (last - pos) % UINT;
        var capacity := NewCapacity(mem.Length, last - pos, |data|);
        if capacity == 0 || !ok {
          return Refused;
        }
        if capacity < size + |data| {
          return Overrun;
        }
        Move(size, capacity);
      }
      Fill(data);
      r := Done;
    }

    /** Copies the first `size` bytes to the bottom of a new store of `capacity` bytes. */
    method Move(size: nat, capacity: nat)
      requires Valid() && size <= last - pos && size <= capacity
      modifies this
      ensures Valid() && fresh(mem) && mem.Length == capacity && pos == 0 && last == size
      ensures Contents() == old(Contents())[..size]
      ensures moved == old(moved) + size && total == old(total) + capacity
    {
      var keep, p := mem[pos..last], new byte[capacity];
      forall i | 0 <= i < size {
        p[i] := keep[i];
      }
      moved, total := moved + size, total + capacity;
      mem, pos, last := p, 0, size;
    }

    /** Copies `data` behind the content, where it fits. */
    method Fill(data: seq<byte>)
      requires Valid() && |data| <= mem.Length - last
      modifies this`last, mem
      ensures Valid() && last == old(last) + |data| && Contents() == old(Contents()) + data
    {
      forall i | 0 <= i < |data| {
        mem[last + i] := data[i];
      }
      last := last + |data|;
    }

    /** xdbd_buf_append_buf, also of a buffer to itself; two buffers never share a store. */
    method AppendBuf(buf: Buf, ok: bool) returns (r: Append)
      requires Valid() && buf.Valid() && (buf == this || buf.mem != mem)
      modifies this, mem
      ensures Valid() && (buf != this ==> buf.Valid() && buf.Contents() == old(buf.Contents()))
      ensures r == AppendResult(old(mem.Length - last), old(mem.Length), old(last - pos), old(|buf.Contents()|), ok)
      ensures r.Done? ==>
        Contents() == Kept(old(Contents()), old(mem.Length - last), old(|buf.Contents()|)) + old(buf.Contents())
      ensures r.Refused? ==> unchanged(this) && unchanged(mem)
      ensures old(|buf.Contents()| <= mem.Length - last) ==> mem == old(mem) && pos == old(pos)
      ensures r.Done? && old(|buf.Contents()| > mem.Length - last) ==>
        fresh(mem) && pos == 0 && mem.Length == NewCapacity(old(mem.Length), old(last - pos), old(|buf.Contents()|))
      ensures mem == old(mem) || fresh(mem)
    {
      var data := buf.mem[buf.pos..buf.last];
      r := AppendMem(data, ok);
    }
  }

  /** xdbd_create_buf; `ok` says whether the pool serves both requests.  A request for
      no bytes is refused. */
  method CreateBuf(size: nat, ok: bool) returns (b: Buf?)
    ensures b == null <==> size == 0 || !ok
    ensures b != null ==> fresh(b) && fresh(b.mem) && b.Valid() && b.mem.Length == size && b.Contents() == []
    ensures b != null ==> b.pos == 0 && b.Spent() == Cost(size, 0, 0, size)
  {
    if size == 0 || !ok {
      return null;
    }
    b := new Buf(size);
  }
}
