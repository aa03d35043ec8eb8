/** The pool allocator: small requests are bumped out of 4096-byte pages, of which only
    the newest is tried, and large ones get a block of whole pages of their own.  The
    system allocator is a set of live chunks; whether it can serve a request, and where
    it places the chunk, is chosen outside. */
module Pool {

  const PAGE_SIZE: nat := 4096
  const ALIGN_SIZE: nat := 8               // BFDEV_BYTES_PER_LONG on a 64-bit machine
  const SIZE_LIMIT: nat := 0x1_0000_0000_0000_0000

  // sizes of the bookkeeping records xdbd_cache_t and xdbd_block_t
  const CACHE_RECORD: nat := 64
  const BLOCK_RECORD: nat := 16

  datatype Option<T> = None | Some(value: T)

  /** Rounding up to a multiple of the alignment, in size_t arithmetic. */
  function AlignWord(size: nat): nat {
    (size + ALIGN_SIZE - 1) % SIZE_LIMIT / ALIGN_SIZE * ALIGN_SIZE
  }

  function AlignPage(size: nat): nat {
    (size + PAGE_SIZE - 1) % SIZE_LIMIT / PAGE_SIZE * PAGE_SIZE
  }

  /** A small request is rounded up to the next multiple of the alignment, which stays within
      one page. */
  lemma AlignSmall(size: nat)
    requires 0 < size < PAGE_SIZE
    ensures size <= AlignWord(size) < size + ALIGN_SIZE && AlignWord(size) % ALIGN_SIZE == 0
    ensures AlignWord(size) <= PAGE_SIZE
  {
  }

  /** A large one is rounded up to whole pages, unless that wraps around. */
  lemma AlignLarge(size: nat)
    requires PAGE_SIZE <= size <= SIZE_LIMIT - PAGE_SIZE
    ensures size <= AlignPage(size) < size + PAGE_SIZE && AlignPage(size) % PAGE_SIZE == 0
  {
  }

  function Rounded(size: nat): nat {
    if size < PAGE_SIZE then AlignWord(size) else AlignPage(size)
  }

  /** An allocation is as large as requested, unless the request is within a page of the
      largest size_t, in which case it is smaller. */
  lemma RoundedEnough(size: nat)
    requires 0 < size < SIZE_LIMIT
    ensures Rounded(size) >= size <==> size <= SIZE_LIMIT - PAGE_SIZE
  {
  }

  // ------------------------------------------------------ the system heap

  datatype Chunk = Chunk(base: nat, size: nat)

  predicate Apart(a: Chunk, b: Chunk) {
    a.base + a.size <= b.base || b.base + b.size <= a.base
  }

  predicate Inside(a: Chunk, b: Chunk) {
    b.base <= a.base && a.base + a.size <= b.base + b.size
  }

  ghost predicate AllApart(live: set<Chunk>) {
    forall a, b :: a in live && b in live && a != b ==> Apart(a, b)
  }

  /** What malloc may return: nothing, or a place apart from everything live. */
  ghost predicate PlaceOk(live: set<Chunk>, size: nat, place: Option<nat>) {
    place.Some? ==>
      && Chunk(place.value, size) !in live
      && forall a :: a in live ==> Apart(a, Chunk(place.value, size))
  }

  class Heap {
    var live: set<Chunk>

    constructor ()
      ensures live == {}
    {
      live := {};
    }

    method Malloc(size: nat, place: Option<nat>) returns (c: Option<Chunk>)
      requires PlaceOk(live, size, place)
      modifies this
      ensures if place.None? then c == None && live == old(live)
              else c == Some(Chunk(place.value, size)) && live == old(live) + {c.value}
    {
      if place.None? {
        return None;
      }
      c := Some(Chunk(place.value, size));
      live := live + {c.value};
    }

    method Free(c: Chunk)
      requires c in live
      modifies this
      ensures live == old(live) - {c}
    {
      live := live - {c};
    }
  }

  // -------------------------------------------------------- pool contents

  /** A page being bumped; `first` is the size of the request it was opened for. */
  datatype Cache = Cache(record: Chunk, data: Chunk, used: nat, first: nat)

  datatype Block = Block(record: Chunk, data: Chunk)

  /** One allocation handed out: its bytes, the size asked for, the chunk it lies in. */
  datatype Given = Given(bytes: Chunk, requested: nat, home: Chunk)

  /** The chunks a pool owns: bookkeeping records and data, newest first. */
  function CacheChunks(caches: seq<Cache>): seq<Chunk> {
    if caches == [] then [] else [caches[0].data, caches[0].record] + CacheChunks(caches[1..])
  }

  function BlockChunks(blocks: seq<Block>): seq<Chunk> {
    if blocks == [] then [] else [blocks[0].data, blocks[0].record] + BlockChunks(blocks[1..])
  }

  function Owned(caches: seq<Cache>, blocks: seq<Block>): seq<Chunk> {
    CacheChunks(caches) + BlockChunks(blocks)
  }

  ghost predicate Distinct(xs: seq<Chunk>) {
    forall i, j :: 0 <= i < j < |xs| ==> xs[i] != xs[j]
  }

  /** The pages are filled from the bottom, and each but the oldest was opened for a
      request that did not fit in the page before it. */
  ghost predicate PagesOk(caches: seq<Cache>) {
    && (forall i :: 0 <= i < |caches| ==>
          && caches[i].data.size == PAGE_SIZE && 0 < caches[i].first <= caches[i].used <= PAGE_SIZE)
    && (forall i, j :: 0 <= i && j == i + 1 && j < |caches| ==> caches[j].used + caches[i].first > PAGE_SIZE)
  }

  /** An allocation lies in the filled part of one page, or is one whole block. */
  ghost predicate GivenOk(g: Given, caches: seq<Cache>, blocks: seq<Block>) {
    && 0 < g.requested < SIZE_LIMIT && g.bytes.size == Rounded(g.requested)
    && Inside(g.bytes, g.home)
    && ((exists i :: 0 <= i < |caches| && caches[i].data == g.home
           && g.bytes.base + g.bytes.size <= g.home.base + caches[i].used)
        || (exists i :: 0 <= i < |blocks| && blocks[i].data == g.home && g.bytes == g.home))
  }

  /** Live allocations never overlap, and each lies inside one chunk the pool owns. */
  ghost predicate GivensOk(given: seq<Given>, caches: seq<Cache>, blocks: seq<Block>) {
    && (forall i :: 0 <= i < |given| ==> GivenOk(given[i], caches, blocks))
    && (forall i, j :: 0 <= i < j < |given| ==> Apart(given[i].bytes, given[j].bytes))
  }

  lemma InsideApart(a: Chunk, x: Chunk, b: Chunk, y: Chunk)
    requires Inside(a, x) && Inside(b, y) && Apart(x, y)
    ensures Apart(a, b)
  {
  }

  // --------------------------------------------------------- waste bound

  function Used(caches: seq<Cache>): nat {
    if caches == [] then 0 else caches[0].used + Used(caches[1..])
  }

  /** Neighbouring pages together hold more than one page's worth. */
  lemma {:induction false} NeighboursFull(caches: seq<Cache>)
    requires PagesOk(caches) && caches != []
    ensures PAGE_SIZE * (|caches| - 1) <= 2 * Used(caches) - caches[0].used - caches[|caches| - 1].used
    ensures |caches| > 1 ==> PAGE_SIZE * (|caches| - 1) < 2 * Used(caches) - caches[0].used - caches[|caches| - 1].used
  {
    if |caches| > 1 {
      var rest := caches[1..];
      assert forall i :: 0 <= i < |rest| ==> rest[i] == caches[i + 1];
      NeighboursFull(rest);
      assert caches[1].used + caches[0].first > PAGE_SIZE;
    }
  }

  /** Trying only the newest page wastes less than half: with k pages in use, 4096 * (k - 1)
      bytes are less than twice the aligned bytes handed out. */
  lemma NextFitWaste(caches: seq<Cache>)
    requires PagesOk(caches) && caches != []
    ensures PAGE_SIZE * (|caches| - 1) < 2 * Used(caches)
  {
    NeighboursFull(caches);
  }

  /** The aligned bytes of the small allocations. */
  function SmallBytes(given: seq<Given>): nat {
    if given == [] then 0 else
    var g := given[|given| - 1];
    SmallBytes(given[..|given| - 1]) + if g.requested < PAGE_SIZE then g.bytes.size else 0
  }

  // ------------------------------------------------------- what it owns

  lemma {:induction false} CacheOwned(caches: seq<Cache>, c: Cache)
    requires c in caches
    ensures c.data in CacheChunks(caches) && c.record in CacheChunks(caches)
  {
    if c != caches[0] { CacheOwned(caches[1..], c); }
  }

  lemma {:induction false} BlockOwned(blocks: seq<Block>, b: Block)
    requires b in blocks
    ensures b.data in BlockChunks(blocks) && b.record in BlockChunks(blocks)
  {
    if b != blocks[0] { BlockOwned(blocks[1..], b); }
  }

  /** Everything the pool owns is live, owned once, and live chunks do not overlap. */
  ghost predicate OwnsOk(owned: seq<Chunk>, live: set<Chunk>) {
    && Distinct(owned)
    && (forall c :: c in owned ==> c in live)
    && AllApart(live)
  }

  lemma OwnMore(owned: seq<Chunk>, live: set<Chunk>, c: Chunk)
    requires OwnsOk(owned, live) && PlaceOk(live, c.size, Some(c.base))
    ensures OwnsOk([c] + owned, live + {c})
  {
  }

  /** The data chunks of different pages, and of pages and blocks, do not overlap. */
  lemma HomesApart(caches: seq<Cache>, blocks: seq<Block>, live: set<Chunk>)
    requires OwnsOk(Owned(caches, blocks), live)
    ensures forall i :: 0 < i < |caches| ==> Apart(caches[0].data, caches[i].data)
    ensures caches != [] ==> forall i :: 0 <= i < |blocks| ==> Apart(caches[0].data, blocks[i].data)
  {
    if caches != [] {
      var owned := Owned(caches, blocks);
      var rest := CacheChunks(caches[1..]) + BlockChunks(blocks);
      assert owned == [caches[0].data, caches[0].record] + rest;
      forall c | c in rest ensures Apart(caches[0].data, c) {
        var i :| 0 <= i < |rest| && rest[i] == c;
        assert owned[i + 2] == c && owned[0] == caches[0].data;
      }
      forall i | 0 < i < |caches| ensures caches[i].data in rest {
        assert caches[i] == caches[1..][i - 1];
        CacheOwned(caches[1..], caches[i]);
      }
      forall i | 0 <= i < |blocks| ensures blocks[i].data in rest {
        BlockOwned(blocks, blocks[i]);
      }
    }
  }

  // ----------------------------------------------------- one allocation

  /** Bumping the newest page by `size` bytes. */
  function Bumped(caches: seq<Cache>, size: nat): seq<Cache>
    requires caches != []
  {
    [caches[0].(used := caches[0].used + size)] + caches[1..]
  }

  lemma BumpPages(caches: seq<Cache>, size: nat)
    requires PagesOk(caches) && caches != [] && caches[0].used + size <= PAGE_SIZE
    ensures PagesOk(Bumped(caches, size))
  {
  }

  lemma BumpSame(caches: seq<Cache>, blocks: seq<Block>, size: nat)
    requires caches != []
    ensures Owned(Bumped(caches, size), blocks) == Owned(caches, blocks)
    ensures CacheChunks(Bumped(caches, size)) == CacheChunks(caches)
    ensures Used(Bumped(caches, size)) == Used(caches) + size
  {
  }

  /** An allocation that keeps its place when pages are bumped or added in front. */
  lemma GivenKept(g: Given, caches: seq<Cache>, blocks: seq<Block>, caches': seq<Cache>, blocks': seq<Block>)
    requires GivenOk(g, caches, blocks)
    requires forall i :: 0 <= i < |caches| ==>
      exists j :: 0 <= j < |caches'| && caches'[j].data == caches[i].data && caches'[j].used >= caches[i].used
    requires forall b :: b in blocks ==> b in blocks'
    ensures GivenOk(g, caches', blocks')
  {
    if i :| 0 <= i < |caches| && caches[i].data == g.home && g.bytes.base + g.bytes.size <= g.home.base + caches[i].used {
      var j :| 0 <= j < |caches'| && caches'[j].data == caches[i].data && caches'[j].used >= caches[i].used;
      assert caches'[j].data == g.home;
    } else {
      var i :| 0 <= i < |blocks| && blocks[i].data == g.home && g.bytes == g.home;
      assert blocks[i] in blocks';
      var j :| 0 <= j < |blocks'| && blocks'[j] == blocks[i];
      assert blocks'[j].data == g.home;
    }
  }

  /** The bytes above the fill mark of the newest page overlap no allocation. */
  lemma NewBytesApart(g: Given, caches: seq<Cache>, blocks: seq<Block>, live: set<Chunk>, size: nat)
    requires OwnsOk(Owned(caches, blocks), live) && GivenOk(g, caches, blocks)
    requires caches != [] && caches[0].data.size == PAGE_SIZE && caches[0].used + size <= PAGE_SIZE
    ensures Apart(g.bytes, Chunk(caches[0].data.base + caches[0].used, size))
  {
    HomesApart(caches, blocks, live);
    var page, top := caches[0].data, Chunk(caches[0].data.base + caches[0].used, size);
    assert Inside(top, page);
    if i :| 0 <= i < |caches| && caches[i].data == g.home && g.bytes.base + g.bytes.size <= g.home.base + caches[i].used {
      if i > 0 { InsideApart(top, page, g.bytes, g.home); }
    } else {
      var i :| 0 <= i < |blocks| && blocks[i].data == g.home && g.bytes == g.home;
      InsideApart(top, page, g.bytes, g.home);
    }
  }

  lemma BumpGivens(given: seq<Given>, caches: seq<Cache>, blocks: seq<Block>, live: set<Chunk>, requested: nat)
    requires OwnsOk(Owned(caches, blocks), live) && GivensOk(given, caches, blocks)
    requires 0 < requested < PAGE_SIZE && caches != [] && caches[0].data.size == PAGE_SIZE
    requires caches[0].used + AlignWord(requested) <= PAGE_SIZE
    ensures var size, page := AlignWord(requested), caches[0];
      GivensOk(given + [Given(Chunk(page.data.base + page.used, size), requested, page.data)], Bumped(caches, size), blocks)
  {
    var size, page, after := AlignWord(requested), caches[0], Bumped(caches, AlignWord(requested));
    var g := Given(Chunk(page.data.base + page.used, size), requested, page.data);
    assert after[0].data == g.home && g.bytes.base + g.bytes.size <= g.home.base + after[0].used;
    forall i | 0 <= i < |given| ensures GivenOk(given[i], after, blocks) && Apart(given[i].bytes, g.bytes) {
      forall k | 0 <= k < |caches|
        ensures exists j :: 0 <= j < |after| && after[j].data == caches[k].data && after[j].used >= caches[k].used
      {
        assert after[k].data == caches[k].data && after[k].used >= caches[k].used;
      }
      GivenKept(given[i], caches, blocks, after, blocks);
      NewBytesApart(given[i], caches, blocks, live, size);
    }
  }

  /** A fresh page in front leaves every allocation where it is. */
  lemma PageGivens(given: seq<Given>, caches: seq<Cache>, blocks: seq<Block>, page: Cache)
    requires GivensOk(given, caches, blocks)
    ensures GivensOk(given, [page] + caches, blocks)
  {
    var after := [page] + caches;
    forall i | 0 <= i < |given| ensures GivenOk(given[i], after, blocks) {
      forall k | 0 <= k < |caches|
        ensures exists j :: 0 <= j < |after| && after[j].data == caches[k].data && after[j].used >= caches[k].used
      {
        assert after[k + 1] == caches[k];
      }
      GivenKept(given[i], caches, blocks, after, blocks);
    }
  }

  lemma SmallStep(given: seq<Given>, g: Given)
    ensures SmallBytes(given + [g]) == SmallBytes(given) + if g.requested < PAGE_SIZE then g.bytes.size else 0
  {
  }

  /** A fresh block overlaps nothing handed out. */
  lemma BlockGivens(given: seq<Given>, caches: seq<Cache>, blocks: seq<Block>, live: set<Chunk>, b: Block, requested: nat)
    requires OwnsOk(Owned(caches, blocks), live) && GivensOk(given, caches, blocks)
    requires PAGE_SIZE <= requested < SIZE_LIMIT && b.data.size == Rounded(requested)
    requires PlaceOk(live, b.data.size, Some(b.data.base))
    ensures GivensOk(given + [Given(b.data, requested, b.data)], caches, [b] + blocks)
  {
    var after, g := [b] + blocks, Given(b.data, requested, b.data);
    assert b.data == Chunk(b.data.base, b.data.size);
    assert after[0].data == g.home && g.bytes == g.home;
    forall i | 0 <= i < |given| ensures GivenOk(given[i], caches, after) && Apart(given[i].bytes, g.bytes) {
      GivenKept(given[i], caches, blocks, caches, after);
      HomeLive(given[i], caches, blocks, live);
      InsideApart(given[i].bytes, given[i].home, g.bytes, g.bytes);
    }
  }

  lemma HomeLive(g: Given, caches: seq<Cache>, blocks: seq<Block>, live: set<Chunk>)
    requires OwnsOk(Owned(caches, blocks), live) && GivenOk(g, caches, blocks)
    ensures g.home in live
  {
    if i :| 0 <= i < |caches| && caches[i].data == g.home && g.bytes.base + g.bytes.size <= g.home.base + caches[i].used {
      CacheOwned(caches, caches[i]);
    } else {
      var i :| 0 <= i < |blocks| && blocks[i].data == g.home && g.bytes == g.home;
      BlockOwned(blocks, blocks[i]);
    }
  }

  /** xdbd_pool_t.  `given` is the history of what has been handed out since the pool
      was created or last released. */
  class Pool {
    const heap: Heap
    var caches: seq<Cache>
    var blocks: seq<Block>
    ghost var given: seq<Given>

    /** All but the rule about how full each page is. */
    ghost predicate Held()
      reads this, heap
    {
      && OwnsOk(Owned(caches, blocks), heap.live)
      && GivensOk(given, caches, blocks)
      && Used(caches) == SmallBytes(given)
    }

    ghost predicate Valid()
      reads this, heap
    {
      Held() && PagesOk(caches)
    }

    constructor (heap: Heap)
      requires AllApart(heap.live)
      ensures Valid() && this.heap == heap && caches == [] && blocks == [] && given == []
    {
      this.heap := heap;
      caches, blocks, given := [], [], [];
    }

    /** bfdev_allocpool_alloc on the newest page: fails exactly when the rest is too small. */
    method Bump(size: nat, ghost requested: nat) returns (address: Option<nat>)
      requires Held() && caches != [] && caches[0].data.size == PAGE_SIZE
      requires 0 < requested < PAGE_SIZE && size == AlignWord(requested)
      modifies this
      ensures Held() && blocks == old(blocks)
      ensures if old(caches[0]).used + size > PAGE_SIZE
              then address == None && caches == old(caches) && given == old(given)
              else address == Some(old(caches[0]).data.base + old(caches[0]).used)
                   && caches == Bumped(old(caches), size)
                   && given == old(given) + [Given(Chunk(address.value, size), requested, old(caches[0]).data)]
    {
      hide OwnsOk, GivensOk, SmallBytes, Used, Owned, AlignWord;
      var c := caches[0];
      if c.used + size > PAGE_SIZE {
        return None;
      }
      BumpSame(caches, blocks, size);
      BumpGivens(given, caches, blocks, heap.live, requested);
      ghost var g := Given(Chunk(c.data.base + c.used, size), requested, c.data);
      SmallStep(given, g);
      address := Some(c.data.base + c.used);
      caches := Bumped(caches, size);
      given := given + [g];
    }

    /** Tries the newest page; if the request does not fit, opens a page for it. */
    method CacheAlloc(requested: nat, record: Option<nat>, data: Option<nat>) returns (address: Option<nat>)
      requires Valid() && 0 < requested < PAGE_SIZE
      requires PlaceOk(heap.live, CACHE_RECORD, record)
      requires record.Some? ==> PlaceOk(heap.live + {Chunk(record.value, CACHE_RECORD)}, PAGE_SIZE, data)
      modifies this, heap
      ensures Valid() && blocks == old(blocks)
      ensures var size := AlignWord(requested); var before := old(caches);
        if before != [] && before[0].used + size <= PAGE_SIZE then
          && address == Some(before[0].data.base + before[0].used)
          && caches == Bumped(before, size) && heap.live == old(heap.live)
        else if record.None? || data.None? then
          address == None && caches == before && heap.live == old(heap.live)
        else
          var page := Cache(Chunk(record.value, CACHE_RECORD), Chunk(data.value, PAGE_SIZE), size, size);
          && address == data && caches == [page] + before
          && heap.live == old(heap.live) + {page.record, page.data}
      ensures if address == None then given == old(given)
              else given == old(given) + [Given(Chunk(address.value, AlignWord(requested)), requested, caches[0].data)]
    {
      hide OwnsOk, GivensOk, SmallBytes, Used, Owned, AlignWord, PagesOk, AllApart, PlaceOk, CacheChunks;
      var size := AlignWord(requested);
      AlignSmall(requested);
      if caches != [] {
        FrontPage(caches);
        address := Bump(size, requested);
        if address.Some? {
          BumpPages(old(caches), size);
          return;
        }
      }
      var c := heap.Malloc(CACHE_RECORD, record);
      if c.None? {
        return None;
      }
      var d := heap.Malloc(PAGE_SIZE, data);
      if d.None? {
        heap.Free(c.value);
        PutBack(old(heap.live), CACHE_RECORD, record);
        return None;
      }
      var page := Cache(c.value, d.value, 0, size);
      OpenPage(caches, blocks, given, old(heap.live), page);
      caches := [page] + caches;
      assert heap.live == old(heap.live) + {page.record, page.data};
      address := Bump(size, requested);
      OpenedPage(old(caches), page, size);
      assert address.Some?;  // the BFDEV_BUG_ON test: a fresh page always has room
    }

    /** A block of whole pages for one request. */
    method BlockAlloc(requested: nat, record: Option<nat>, data: Option<nat>) returns (address: Option<nat>)
      requires Valid() && PAGE_SIZE <= requested < SIZE_LIMIT
      requires PlaceOk(heap.live, BLOCK_RECORD, record)
      requires record.Some? ==> PlaceOk(heap.live + {Chunk(record.value, BLOCK_RECORD)}, AlignPage(requested), data)
      modifies this, heap
      ensures Valid() && caches == old(caches)
      ensures if record.None? || data.None? then
          address == None && blocks == old(blocks) && heap.live == old(heap.live) && given == old(given)
        else
          var b := Block(Chunk(record.value, BLOCK_RECORD), Chunk(data.value, AlignPage(requested)));
          && address == data && blocks == [b] + old(blocks)
          && heap.live == old(heap.live) + {b.record, b.data}
          && given == old(given) + [Given(b.data, requested, b.data)]
    {
      hide OwnsOk, GivensOk, SmallBytes, Used, Owned, AlignPage, PagesOk, AllApart, PlaceOk;
      var size := AlignPage(requested);
      var c := heap.Malloc(BLOCK_RECORD, record);
      if c.None? {
        return None;
      }
      var d := heap.Malloc(size, data);
      if d.None? {
        heap.Free(c.value);
        PutBack(old(heap.live), BLOCK_RECORD, record);
        return None;
      }
      var b := Block(c.value, d.value);
      OpenBlock(caches, blocks, given, old(heap.live), b, requested);
      SmallStep(given, Given(b.data, requested, b.data));
      blocks := [b] + blocks;
      given := given + [Given(b.data, requested, b.data)];
      assert heap.live == old(heap.live) + {b.record, b.data};
      address := data;
    }

    /** xdbd_palloc */
    method Palloc(size: nat, record: Option<nat>, data: Option<nat>) returns (address: Option<nat>)
      requires Valid() && size < SIZE_LIMIT
      requires PlaceOk(heap.live, if size < PAGE_SIZE then CACHE_RECORD else BLOCK_RECORD, record)
      requires record.Some? ==>
        var c := Chunk(record.value, if size < PAGE_SIZE then CACHE_RECORD else BLOCK_RECORD);
        PlaceOk(heap.live + {c}, if size < PAGE_SIZE then PAGE_SIZE else AlignPage(size), data)
      modifies this, heap
      ensures Valid()
      ensures size == 0 ==> address == None
      ensures 0 < size && record.Some? && data.Some? ==> address.Some?
      ensures address == None ==> given == old(given) && heap.live == old(heap.live)
      ensures address.Some? ==>
        && |given| == |old(given)| + 1 && given[..|old(given)|] == old(given)
        && given[|old(given)|].bytes == Chunk(address.value, Rounded(size))
        && given[|old(given)|].requested == size
      ensures address.Some? && size <= SIZE_LIMIT - PAGE_SIZE ==>
        var unit, taken := if size < PAGE_SIZE then ALIGN_SIZE else PAGE_SIZE, given[|old(given)|].bytes.size;
        size <= taken < size + unit && taken % unit == 0
    {
      hide PlaceOk, OwnsOk, GivensOk, PagesOk, AlignWord, AlignPage;
      if size == 0 {
        return None;
      }
      if size < PAGE_SIZE {
        AlignSmall(size);
      } else if size <= SIZE_LIMIT - PAGE_SIZE {
        AlignLarge(size);
      }
      if size < PAGE_SIZE {
        address := CacheAlloc(size, record, data);
      } else {
        address := BlockAlloc(size, record, data);
      }
    }

    /** xdbd_release_pool: every chunk the pool owns is freed once, and nothing else is. */
    method Release()
      requires Valid()
      modifies this, heap
      ensures Valid() && caches == [] && blocks == [] && given == []
      ensures heap.live == old(heap.live) - Members(Owned(old(caches), old(blocks)))
    {
      hide GivensOk, PagesOk, Owned, Used, SmallBytes, OwnsOk, Members;
      ghost var live, owned := heap.live, Owned(caches, blocks);
      OwnedAt(caches, blocks);
      FreeNone(owned, live);
      var i := 0;
      while i < |caches|
        invariant 0 <= i <= |caches| && caches == old(caches) && blocks == old(blocks)
        invariant |owned| == 2 * |caches| + 2 * |blocks|
        invariant heap.live == live - Members(owned[..2 * i])
      {
        FreeNext(owned, live, 2 * i);
        heap.Free(caches[i].data);
        FreeNext(owned, live, 2 * i + 1);
        heap.Free(caches[i].record);
        i := i + 1;
      }
      var j := 0;
      while j < |blocks|
        invariant 0 <= j <= |blocks| && caches == old(caches) && blocks == old(blocks)
        invariant |owned| == 2 * |caches| + 2 * |blocks|
        invariant heap.live == live - Members(owned[..2 * |caches| + 2 * j])
      {
        FreeNext(owned, live, 2 * |caches| + 2 * j);
        heap.Free(blocks[j].data);
        FreeNext(owned, live, 2 * |caches| + 2 * j + 1);
        heap.Free(blocks[j].record);
        j := j + 1;
      }
      assert owned[..|owned|] == owned;
      caches, blocks, given := [], [], [];
      NothingOwned(live, owned);
    }
  }

  function Members(xs: seq<Chunk>): set<Chunk> {
    set c | c in xs
  }

  lemma {:induction false} CacheLength(caches: seq<Cache>)
    ensures |CacheChunks(caches)| == 2 * |caches|
  {
    if caches != [] { CacheLength(caches[1..]); }
  }

  lemma {:induction false} CachePlace(caches: seq<Cache>, i: nat)
    requires i < |caches|
    ensures 2 * i + 1 < |CacheChunks(caches)|
    ensures CacheChunks(caches)[2 * i] == caches[i].data && CacheChunks(caches)[2 * i + 1] == caches[i].record
  {
    if i > 0 {
      var rest := caches[1..];
      CachePlace(rest, i - 1);
      var j := 2 * (i - 1);
      assert CacheChunks(caches)[j + 2] == CacheChunks(rest)[j];
      assert CacheChunks(caches)[j + 3] == CacheChunks(rest)[j + 1];
    }
  }

  lemma CacheAt(caches: seq<Cache>)
    ensures |CacheChunks(caches)| == 2 * |caches|
    ensures forall i :: 0 <= i < |caches| ==>
      CacheChunks(caches)[2 * i] == caches[i].data && CacheChunks(caches)[2 * i + 1] == caches[i].record
  {
    hide CacheChunks;
    CacheLength(caches);
    forall i | 0 <= i < |caches|
      ensures CacheChunks(caches)[2 * i] == caches[i].data && CacheChunks(caches)[2 * i + 1] == caches[i].record
    {
      CachePlace(caches, i);
    }
  }

  lemma {:induction false} BlockLength(blocks: seq<Block>)
    ensures |BlockChunks(blocks)| == 2 * |blocks|
  {
    if blocks != [] { BlockLength(blocks[1..]); }
  }

  lemma {:induction false} BlockPlace(blocks: seq<Block>, i: nat)
    requires i < |blocks|
    ensures 2 * i + 1 < |BlockChunks(blocks)|
    ensures BlockChunks(blocks)[2 * i] == blocks[i].data && BlockChunks(blocks)[2 * i + 1] == blocks[i].record
  {
    if i > 0 {
      var rest := blocks[1..];
      BlockPlace(rest, i - 1);
      var j := 2 * (i - 1);
      assert BlockChunks(blocks)[j + 2] == BlockChunks(rest)[j];
      assert BlockChunks(blocks)[j + 3] == BlockChunks(rest)[j + 1];
    }
  }

  lemma BlockAt(blocks: seq<Block>)
    ensures |BlockChunks(blocks)| == 2 * |blocks|
    ensures forall i :: 0 <= i < |blocks| ==>
      BlockChunks(blocks)[2 * i] == blocks[i].data && BlockChunks(blocks)[2 * i + 1] == blocks[i].record
  {
    hide BlockChunks;
    BlockLength(blocks);
    forall i | 0 <= i < |blocks|
      ensures BlockChunks(blocks)[2 * i] == blocks[i].data && BlockChunks(blocks)[2 * i + 1] == blocks[i].record
    {
      BlockPlace(blocks, i);
    }
  }

  lemma OwnedAt(caches: seq<Cache>, blocks: seq<Block>)
    ensures var owned := Owned(caches, blocks); var n := |caches|;
      && |owned| == 2 * n + 2 * |blocks|
      && (forall i :: 0 <= i < n ==> owned[2 * i] == caches[i].data && owned[2 * i + 1] == caches[i].record)
      && (forall j :: 0 <= j < |blocks| ==>
            owned[2 * n + 2 * j] == blocks[j].data && owned[2 * n + 2 * j + 1] == blocks[j].record)
  {
    CacheAt(caches);
    BlockAt(blocks);
  }

  /** The next owned chunk is still live when its turn comes. */
  lemma FreeNext(owned: seq<Chunk>, live: set<Chunk>, n: nat)
    requires OwnsOk(owned, live) && n < |owned|
    ensures owned[n] in live - Members(owned[..n])
    ensures live - Members(owned[..n]) - {owned[n]} == live - Members(owned[..n + 1])
  {
  }

  lemma FreeNone(owned: seq<Chunk>, live: set<Chunk>)
    ensures live - Members(owned[..0]) == live
  {
  }

  lemma NothingOwned(live: set<Chunk>, owned: seq<Chunk>)
    requires OwnsOk(owned, live)
    ensures OwnsOk(Owned([], []), live - Members(owned)) && GivensOk([], [], []) && PagesOk([])
    ensures Used([]) == SmallBytes([])
  {
  }

  lemma OpenBlock(caches: seq<Cache>, blocks: seq<Block>, given: seq<Given>, live: set<Chunk>, b: Block, requested: nat)
    requires OwnsOk(Owned(caches, blocks), live) && GivensOk(given, caches, blocks)
    requires PAGE_SIZE <= requested < SIZE_LIMIT && b.data.size == AlignPage(requested)
    requires PlaceOk(live, b.record.size, Some(b.record.base))
    requires PlaceOk(live + {b.record}, b.data.size, Some(b.data.base))
    ensures OwnsOk(Owned(caches, [b] + blocks), live + {b.record, b.data})
    ensures GivensOk(given + [Given(b.data, requested, b.data)], caches, [b] + blocks)
  {
    hide GivensOk;
    assert ([b] + blocks)[1..] == blocks;
    var cs, bs := CacheChunks(caches), BlockChunks(blocks);
    assert Owned(caches, [b] + blocks) == cs + ([b.data, b.record] + bs);
    OwnMiddle(cs, bs, live, b.record);
    OwnMiddle(cs, [b.record] + bs, live + {b.record}, b.data);
    assert [b.data] + ([b.record] + bs) == [b.data, b.record] + bs;
    assert live + {b.record, b.data} == live + {b.record} + {b.data};
    BlockGivens(given, caches, blocks, live, b, requested);
  }

  lemma OwnMiddle(cs: seq<Chunk>, bs: seq<Chunk>, live: set<Chunk>, c: Chunk)
    requires OwnsOk(cs + bs, live) && PlaceOk(live, c.size, Some(c.base))
    ensures OwnsOk(cs + ([c] + bs), live + {c})
  {
    assert c == Chunk(c.base, c.size);
    var before, after := cs + bs, cs + ([c] + bs);
    assert forall i :: 0 <= i < |after| && i != |cs| ==> after[i] == before[if i < |cs| then i else i - 1];
    forall i | 0 <= i < |after| && i != |cs| ensures after[i] in live && after[i] != c {
      assert after[i] == before[if i < |cs| then i else i - 1];
      assert before[if i < |cs| then i else i - 1] in before;
    }
  }

  lemma FrontPage(caches: seq<Cache>)
    requires PagesOk(caches) && caches != []
    ensures caches[0].data.size == PAGE_SIZE
  {
  }

  /** Giving back a chunk just taken restores the heap. */
  lemma PutBack(live: set<Chunk>, size: nat, place: Option<nat>)
    requires PlaceOk(live, size, place) && place.Some?
    ensures live + {Chunk(place.value, size)} - {Chunk(place.value, size)} == live
  {
  }

  lemma OpenPage(caches: seq<Cache>, blocks: seq<Block>, given: seq<Given>, live: set<Chunk>, page: Cache)
    requires OwnsOk(Owned(caches, blocks), live) && GivensOk(given, caches, blocks)
    requires page.used == 0
    requires PlaceOk(live, page.record.size, Some(page.record.base))
    requires PlaceOk(live + {page.record}, page.data.size, Some(page.data.base))
    ensures OwnsOk(Owned([page] + caches, blocks), live + {page.record, page.data})
    ensures GivensOk(given, [page] + caches, blocks)
    ensures Used([page] + caches) == Used(caches)
  {
    hide GivensOk, PlaceOk, AllApart;
    var owned := Owned(caches, blocks);
    OwnMore(owned, live, page.record);
    OwnMore([page.record] + owned, live + {page.record}, page.data);
    assert ([page] + caches)[1..] == caches;
    assert Owned([page] + caches, blocks) == [page.data] + ([page.record] + owned);
    assert live + {page.record, page.data} == live + {page.record} + {page.data};
    PageGivens(given, caches, blocks, page);
  }

  lemma OpenedPage(caches: seq<Cache>, page: Cache, size: nat)
    requires PagesOk(caches) && page.used == 0 && page.first == size && page.data.size == PAGE_SIZE
    requires 0 < size <= PAGE_SIZE && (caches != [] ==> caches[0].used + size > PAGE_SIZE)
    ensures Bumped([page] + caches, size) == [page.(used := size)] + caches
    ensures PagesOk(Bumped([page] + caches, size))
  {
  }

  // ------------------------------------------------- what clients rely on

  /** The live allocations of a pool never overlap; each lies inside one live chunk the
      pool owns, and is as large as requested unless the request was within a page of the
      largest size_t. */
  lemma AllocationsSeparate(p: Pool)
    requires p.Valid()
    ensures forall i, j :: 0 <= i < j < |p.given| ==> Apart(p.given[i].bytes, p.given[j].bytes)
    ensures forall i :: 0 <= i < |p.given| ==> var g := p.given[i];
      && Inside(g.bytes, g.home) && g.home in Owned(p.caches, p.blocks) && g.home in p.heap.live
      && (g.bytes.size >= g.requested <==> g.requested <= SIZE_LIMIT - PAGE_SIZE)
  {
    forall i | 0 <= i < |p.given|
      ensures p.given[i].home in Owned(p.caches, p.blocks)
      ensures p.given[i].bytes.size >= p.given[i].requested <==> p.given[i].requested <= SIZE_LIMIT - PAGE_SIZE
    {
      var g := p.given[i];
      RoundedEnough(g.requested);
      if k :| 0 <= k < |p.caches| && p.caches[k].data == g.home {
        CacheOwned(p.caches, p.caches[k]);
      } else {
        var k :| 0 <= k < |p.blocks| && p.blocks[k].data == g.home;
        BlockOwned(p.blocks, p.blocks[k]);
      }
    }
  }

  /** The waste bound for a pool in use: k pages hold more than 2048 * (k - 1) bytes. */
  lemma WasteBound(p: Pool)
    requires p.Valid() && p.caches != []
    ensures PAGE_SIZE * (|p.caches| - 1) < 2 * SmallBytes(p.given)
  {
    NextFitWaste(p.caches);
  }

  /** The bytes asked for in small allocations, and how many of these there are. */
  function SmallRequested(given: seq<Given>): nat {
    if given == [] then 0 else
    var g := given[|given| - 1];
    SmallRequested(given[..|given| - 1]) + if g.requested < PAGE_SIZE then g.requested else 0
  }

  function SmallCount(given: seq<Given>): nat {
    if given == [] then 0 else
    SmallCount(given[..|given| - 1]) + if given[|given| - 1].requested < PAGE_SIZE then 1 else 0
  }

  lemma {:induction false} RoundingWaste(given: seq<Given>)
    requires forall i :: 0 <= i < |given| ==> 0 < given[i].requested && given[i].bytes.size == Rounded(given[i].requested)
    ensures SmallRequested(given) <= SmallBytes(given) <= SmallRequested(given) + 7 * SmallCount(given)
  {
    hide AlignWord, AlignPage;
    if given != [] {
      var n := |given| - 1;
      RoundingWaste(given[..n]);
      if given[n].requested < PAGE_SIZE { AlignSmall(given[n].requested); }
    }
  }

  /** ... and in the bytes that were asked for: each small allocation takes at most seven more. */
  lemma WasteInRequested(p: Pool)
    requires p.Valid() && p.caches != []
    ensures PAGE_SIZE * (|p.caches| - 1) < 2 * (SmallRequested(p.given) + 7 * SmallCount(p.given))
  {
    hide AlignWord, AlignPage, Rounded;
    WasteBound(p);
    RoundingWaste(p.given);
  }
}
