/** What one select() round does in a state that satisfies the invariant: the cache
    is the largest registered descriptor, and the index scan finds exactly as many
    events as select() reported, each posted once and in index order. */
module EventPoll {
  import opened EventState
  import opened EventInvariant

  /** The IEEE Std 1003.1 contract of select(): it leaves in each work set a subset
      of the master set below its first argument, and returns how many bits it left. */
  ghost predicate SelectOk(s: State, sel: Select) {
    sel.Reported? ==>
      && (forall fd :: fd in sel.workRead ==> fd in s.masterRead && fd < s.maxFd + 1)
      && (forall fd :: fd in sel.workWrite ==> fd in s.masterWrite && fd < s.maxFd + 1)
      && sel.ready == |sel.workRead| + |sel.workWrite|
  }

  // ---------------------------------------------------------- the cache

  lemma {:induction false} MaxFdIsTop(s: State, i: nat)
    requires Shape(s) && Registry(s) && i <= |s.index|
    ensures forall p :: 0 <= p < i ==> Fd(s, s.index[p]) <= MaxFd(s, i)
    ensures if i == 0 then MaxFd(s, i) == -1 else exists p :: 0 <= p < i && Fd(s, s.index[p]) == MaxFd(s, i)
  {
    if i > 0 {
      MaxFdIsTop(s, i - 1);
      assert Fd(s, s.index[i - 1]) >= 0;
    }
  }

  lemma FillMaxTop(s: State)
    requires Shape(s) && Registry(s) && Cache(s)
    ensures var f := FillMax(s);
      if s.index == [] then f.maxFd == -1 else Top(f, f.maxFd)
  {
    var f := FillMax(s);
    assert forall r :: Registered(f, r) <==> Registered(s, r);
    if s.maxFd == -1 {
      MaxFdIsTop(s, |s.index|);
      if s.index != [] {
        var p :| 0 <= p < |s.index| && Fd(s, s.index[p]) == f.maxFd;
        assert Registered(f, s.index[p]);
      }
      forall r | Registered(f, r) ensures Fd(f, r) <= f.maxFd {
        assert s.index[s.events[r].index] == r;
      }
    } else {
      var q :| Registered(s, q) && Fd(s, q) == s.maxFd;
      assert Registered(f, q);
    }
  }

  lemma FillMaxKeeps(s: State)
    requires Connections(s)
    ensures Connections(FillMax(s))
  {
    hide Role, Bits, FillMax, MaxFd, Registered, Registry, Cache, Top;
    var f := FillMax(s);
    FillMaxSame(s);
    FillMaxTop(s);
    SameRegistry(s, f);
    RecordBits(s, f, s.masterRead, false);
    RecordBits(s, f, s.masterWrite, true);
    TopCache(f);
    forall k: nat | InUse(f, k) ensures Role(f, k) { SameRole(s, f, k); }
  }

  lemma FillMaxSame(s: State)
    requires Shape(s)
    ensures FillMax(s) == s.(maxFd := FillMax(s).maxFd)
  {
  }

  lemma SameRegistry(s: State, f: State)
    requires Shape(s) && Registry(s) && f == s.(maxFd := f.maxFd)
    ensures Shape(f) && Registry(f) && forall r :: Registered(f, r) <==> Registered(s, r)
  {
  }

  lemma TopCache(f: State)
    requires Shape(f) && if f.index == [] then f.maxFd == -1 else Top(f, f.maxFd)
    ensures Cache(f)
  {
  }

  lemma BitsBelow(s: State, master: set<int>, write: bool)
    requires Shape(s) && Registry(s) && Bits(s, master, write) && (if s.index == [] then s.maxFd == -1 else Top(s, s.maxFd))
    ensures forall fd :: fd in master ==> 0 <= fd < s.maxFd + 1
  {
    forall fd | fd in master ensures 0 <= fd < s.maxFd + 1 {
      var k: nat :| k < |s.fds| && s.fds[k] == fd && Registered(s, Ref(k, write));
      assert s.index[s.events[Ref(k, write)].index] == Ref(k, write);
    }
  }

  /** At the select() call the cache is the largest descriptor in the registry, -1
      when there is none, and no master bit lies above it. */
  lemma CacheAtSelect(s: State)
    requires Connections(s)
    ensures var f := FillMax(s);
      && (if s.index == [] then f.maxFd == -1 else Top(f, f.maxFd))
      && (forall fd :: fd in f.masterRead + f.masterWrite ==> 0 <= fd < f.maxFd + 1)
  {
    hide Table, Roles, Registry, Bits, Cache, Top;
    var f := FillMax(s);
    FillMaxTop(s);
    FillMaxKeeps(s);
    BitsBelow(f, f.masterRead, false);
    BitsBelow(f, f.masterWrite, true);
  }

  lemma RepairedBits(s: State, t: State, before: set<int>, master: set<int>, write: bool)
    requires Shape(s) && Shape(t) && t.fds == s.fds && t.events == s.events && t.index == s.index
    requires Bits(s, before, write) && master <= before && t.repaired
    ensures Bits(t, master, write)
  {
  }

  lemma RepairKeeps(s: State, bad: set<int>)
    requires Connections(s)
    ensures Connections(Repair(s, bad))
  {
    hide Bits, Role;
    var t := Repair(s, bad);
    RepairedBits(s, t, s.masterRead, t.masterRead, false);
    RepairedBits(s, t, s.masterWrite, t.masterWrite, true);
    forall k: nat | InUse(t, k) ensures Role(t, k) { SameRole(s, t, k); }
  }

  /** When select() fails on a bad descriptor, exactly the bad ones lose their bits, and no event
      leaves the registry. */
  lemma RepairClears(s: State, bad: set<int>)
    requires Connections(s)
    ensures var t := Poll(s, Failed(true), bad);
      && t.masterRead == s.masterRead - bad && t.masterWrite == s.masterWrite - bad
      && t.index == s.index && t.events == s.events && t.fds == s.fds && t.maxFd == -1
  {
    hide Connections, Top, MaxFd;
    CacheAtSelect(s);
    var f, t := FillMax(s), Poll(s, Failed(true), bad);
    forall fd ensures fd in t.masterRead <==> fd in s.masterRead - bad {
      assert fd in f.masterRead ==> fd in f.masterRead + f.masterWrite;
    }
    forall fd ensures fd in t.masterWrite <==> fd in s.masterWrite - bad {
      assert fd in f.masterWrite ==> fd in f.masterRead + f.masterWrite;
    }
  }

  // ----------------------------------------------------------- the scan

  /** The found events among the first `i` positions, in index order. */
  function Hits(s: State, workRead: set<int>, workWrite: set<int>, i: nat): (h: seq<Ref>)
    requires Shape(s) && i <= |s.index|
    ensures |h| <= i
  {
    if i == 0 then [] else
    var h := Hits(s, workRead, workWrite, i - 1);
    if Found(s, s.index[i - 1], workRead, workWrite) then h + [s.index[i - 1]] else h
  }

  /** Those that go to the accept queue, or to the other one. */
  function Pick(s: State, h: seq<Ref>, accepted: bool): (p: seq<Ref>) {
    if h == [] then [] else
    var p := Pick(s, h[..|h| - 1], accepted);
    if h[|h| - 1] in s.events && s.events[h[|h| - 1]].accepted == accepted then p + [h[|h| - 1]] else p
  }

  lemma {:induction false} HitsAreIndexed(s: State, workRead: set<int>, workWrite: set<int>, i: nat)
    requires Shape(s) && Registry(s) && i <= |s.index|
    ensures forall q :: q in Hits(s, workRead, workWrite, i) <==>
      Registered(s, q) && s.events[q].index < i && Found(s, q, workRead, workWrite)
  {
    if i > 0 {
      HitsAreIndexed(s, workRead, workWrite, i - 1);
      var r := s.index[i - 1];
      assert Registered(s, r) && s.events[r].index == i - 1;
    }
  }

  lemma {:induction false} PickSelects(s: State, h: seq<Ref>, accepted: bool)
    ensures forall r :: r in Pick(s, h, accepted) <==> r in h && r in s.events && s.events[r].accepted == accepted
  {
    if h != [] {
      PickSelects(s, h[..|h| - 1], accepted);
      assert h == h[..|h| - 1] + [h[|h| - 1]];
    }
  }

  ghost predicate Distinct<T(!new)>(xs: seq<T>) {
    forall i, j :: 0 <= i < j < |xs| ==> xs[i] != xs[j]
  }

  lemma {:induction false} HitsDistinct(s: State, workRead: set<int>, workWrite: set<int>, i: nat)
    requires Shape(s) && Registry(s) && i <= |s.index|
    ensures Distinct(Hits(s, workRead, workWrite, i))
  {
    if i > 0 {
      HitsDistinct(s, workRead, workWrite, i - 1);
      HitsAreIndexed(s, workRead, workWrite, i - 1);
      assert s.events[s.index[i - 1]].index == i - 1;
    }
  }

  lemma {:induction false} PickDistinct(s: State, h: seq<Ref>, accepted: bool)
    requires Distinct(h)
    ensures Distinct(Pick(s, h, accepted))
  {
    if h != [] {
      PickDistinct(s, h[..|h| - 1], accepted);
      PickSelects(s, h[..|h| - 1], accepted);
    }
  }

  /** `t` is `s` with the events `h` posted, each at the end of its queue. */
  ghost predicate Posted(s: State, t: State, h: seq<Ref>) {
    && t == s.(events := t.events, acceptQueue := t.acceptQueue, eventQueue := t.eventQueue)
    && t.events.Keys == s.events.Keys
    && (forall q :: q in s.events ==>
          t.events[q] == if q in h then s.events[q].(ready := true, posted := true) else s.events[q])
    && t.acceptQueue == s.acceptQueue + Pick(s, h, true)
    && t.eventQueue == s.eventQueue + Pick(s, h, false)
  }

  lemma PickAppend(s: State, h: seq<Ref>, r: Ref, accepted: bool)
    ensures Pick(s, h + [r], accepted) ==
      Pick(s, h, accepted) + if r in s.events && s.events[r].accepted == accepted then [r] else []
  {
  }

  lemma PostOne(s: State, t: State, h: seq<Ref>, r: Ref)
    requires Shape(s) && Shape(t) && r in s.events && r !in h && !s.events[r].posted
    requires Posted(s, t, h)
    ensures Posted(s, Post(t, r), h + [r])
  {
    hide Pick, Shape;
    PickAppend(s, h, r, true);
    PickAppend(s, h, r, false);
  }

  lemma PostedFound(s: State, t: State, h: seq<Ref>, r: Ref, workRead: set<int>, workWrite: set<int>)
    requires Shape(s) && Shape(t) && r in s.events && Posted(s, t, h)
    ensures r in t.events && Found(t, r, workRead, workWrite) == Found(s, r, workRead, workWrite)
  {
  }

  lemma ScanUnfold(s: State, workRead: set<int>, workWrite: set<int>, i: nat)
    requires Shape(s) && Registry(s) && 0 < i <= |s.index|
    ensures var (t, n) := Scan(s, workRead, workWrite, i - 1);
      var r := s.index[i - 1];
      && r in s.events && r in t.events && r !in Hits(s, workRead, workWrite, i - 1)
      && (if Found(t, r, workRead, workWrite)
          then Scan(s, workRead, workWrite, i) == (Post(t, r), n + 1)
          else Scan(s, workRead, workWrite, i) == (t, n))
      && (if Found(s, r, workRead, workWrite)
          then Hits(s, workRead, workWrite, i) == Hits(s, workRead, workWrite, i - 1) + [r]
          else Hits(s, workRead, workWrite, i) == Hits(s, workRead, workWrite, i - 1))
  {
    hide Found, Post, Registry, InUse;
    NotYetHit(s, workRead, workWrite, i - 1);
  }

  lemma NotYetHit(s: State, workRead: set<int>, workWrite: set<int>, i: nat)
    requires Shape(s) && Registry(s) && i < |s.index|
    ensures s.index[i] !in Hits(s, workRead, workWrite, i)
  {
    hide Found, Hits;
    HitsAreIndexed(s, workRead, workWrite, i);
  }

  /** The scan posts exactly the found events, counting each once. */
  lemma {:induction false} ScanPosts(s: State, workRead: set<int>, workWrite: set<int>, i: nat)
    requires Shape(s) && Registry(s) && i <= |s.index|
    requires forall p :: 0 <= p < |s.index| ==> !s.events[s.index[p]].posted
    ensures var (t, n) := Scan(s, workRead, workWrite, i);
      var h := Hits(s, workRead, workWrite, i);
      n == |h| && Posted(s, t, h)
  {
    hide Scan, Hits, Posted, Found, Registry;
    if i == 0 {
      ScanNone(s, workRead, workWrite);
    } else {
      ScanPosts(s, workRead, workWrite, i - 1);
      ScanStep(s, workRead, workWrite, i);
    }
  }

  lemma ScanNone(s: State, workRead: set<int>, workWrite: set<int>)
    requires Shape(s)
    ensures Scan(s, workRead, workWrite, 0) == (s, 0) && Hits(s, workRead, workWrite, 0) == [] && Posted(s, s, [])
  {
  }

  lemma ScanStep(s: State, workRead: set<int>, workWrite: set<int>, i: nat)
    requires Shape(s) && Registry(s) && 0 < i <= |s.index|
    requires !s.events[s.index[i - 1]].posted
    requires var (t, n) := Scan(s, workRead, workWrite, i - 1);
      var h := Hits(s, workRead, workWrite, i - 1);
      n == |h| && Posted(s, t, h)
    ensures var (t, n) := Scan(s, workRead, workWrite, i);
      var h := Hits(s, workRead, workWrite, i);
      n == |h| && Posted(s, t, h)
  {
    hide Scan, Hits, Posted, Post, Found, Registry;
    var (t, n) := Scan(s, workRead, workWrite, i - 1);
    var h, r := Hits(s, workRead, workWrite, i - 1), s.index[i - 1];
    ScanUnfold(s, workRead, workWrite, i);
    PostedFound(s, t, h, r, workRead, workWrite);
    if Found(s, r, workRead, workWrite) {
      PostOne(s, t, h, r);
    }
  }

  // ------------------------------------------------- ready == nready

  /** The descriptors of `work` that the first `i` positions account for. */
  function Caught(s: State, work: set<int>, write: bool, i: nat): set<int>
    requires Shape(s) && i <= |s.index|
  {
    if i == 0 then {} else
    var r := s.index[i - 1];
    Caught(s, work, write, i - 1) + if r.write == write && Fd(s, r) in work then {Fd(s, r)} else {}
  }

  lemma {:induction false} CaughtMember(s: State, work: set<int>, write: bool, i: nat, fd: int)
    requires Shape(s) && i <= |s.index|
    ensures fd in Caught(s, work, write, i) <==>
      fd in work && exists p :: 0 <= p < i && s.index[p].write == write && Fd(s, s.index[p]) == fd
  {
    if i > 0 { CaughtMember(s, work, write, i - 1, fd); }
  }

  /** A direction and a descriptor determine the registry position. */
  lemma OnePosition(s: State, p: nat, q: nat)
    requires Shape(s) && Table(s) && Registry(s) && p < q < |s.index|
    requires s.index[p].write == s.index[q].write
    ensures Fd(s, s.index[p]) != Fd(s, s.index[q])
  {
  }

  lemma NotYetCaught(s: State, work: set<int>, i: nat)
    requires Shape(s) && Table(s) && Registry(s) && i < |s.index|
    ensures Fd(s, s.index[i]) !in Caught(s, work, s.index[i].write, i)
  {
    forall p: nat | p < i && s.index[p].write == s.index[i].write ensures Fd(s, s.index[p]) != Fd(s, s.index[i]) {
      OnePosition(s, p, i);
    }
    CaughtMember(s, work, s.index[i].write, i, Fd(s, s.index[i]));
  }

  lemma CountStep(s: State, workRead: set<int>, workWrite: set<int>, i: nat)
    requires Shape(s) && i < |s.index| && s.events[s.index[i]].write == s.index[i].write
    requires Fd(s, s.index[i]) !in Caught(s, if s.index[i].write then workWrite else workRead, s.index[i].write, i)
    ensures
      |Hits(s, workRead, workWrite, i + 1)| - |Hits(s, workRead, workWrite, i)| ==
      |Caught(s, workRead, false, i + 1)| + |Caught(s, workWrite, true, i + 1)|
      - |Caught(s, workRead, false, i)| - |Caught(s, workWrite, true, i)|
  {
  }

  lemma HitsNone(s: State, workRead: set<int>, workWrite: set<int>)
    requires Shape(s)
    ensures |Hits(s, workRead, workWrite, 0)| == |Caught(s, workRead, false, 0)| == |Caught(s, workWrite, true, 0)| == 0
  {
  }

  lemma IndexedWrite(s: State, i: nat)
    requires Shape(s) && Registry(s) && i < |s.index|
    ensures s.index[i] in s.events && s.events[s.index[i]].write == s.index[i].write
  {
  }

  lemma {:induction false} HitsCounted(s: State, workRead: set<int>, workWrite: set<int>, i: nat)
    requires Shape(s) && Table(s) && Registry(s) && i <= |s.index|
    ensures |Hits(s, workRead, workWrite, i)| == |Caught(s, workRead, false, i)| + |Caught(s, workWrite, true, i)|
  {
    hide Registered, InUse, Hits, Caught, Found, Table, Registry;
    if i == 0 {
      HitsNone(s, workRead, workWrite);
    } else {
      HitsCounted(s, workRead, workWrite, i - 1);
      NotYetCaught(s, if s.index[i - 1].write then workWrite else workRead, i - 1);
      IndexedWrite(s, i - 1);
      CountStep(s, workRead, workWrite, i - 1);
    }
  }

  lemma AllCaught(s: State, work: set<int>, master: set<int>, write: bool)
    requires Shape(s) && Registry(s) && Bits(s, master, write) && forall fd :: fd in work ==> fd in master
    ensures Caught(s, work, write, |s.index|) == work
  {
    forall fd ensures fd in Caught(s, work, write, |s.index|) <==> fd in work {
      CaughtMember(s, work, write, |s.index|, fd);
      if fd in work {
        var k: nat :| k < |s.fds| && s.fds[k] == fd && Registered(s, Ref(k, write));
        assert s.index[s.events[Ref(k, write)].index] == Ref(k, write);
      }
    }
  }

  /** Whatever subsets select() reports, the scan finds exactly the reported number
      of events; the mismatch branch never runs. */
  lemma ReadyEqualsNready(s: State, sel: Select)
    requires Connections(s) && sel.Reported? && SelectOk(FillMax(s), sel)
    requires forall p :: 0 <= p < |s.index| ==> !s.events[s.index[p]].posted
    ensures var f := FillMax(s);
      Scan(f, sel.workRead, sel.workWrite, |f.index|).1 == sel.ready
  {
    var f := FillMax(s);
    FillMaxKeeps(s);
    ScanPosts(f, sel.workRead, sel.workWrite, |f.index|);
    HitsCounted(f, sel.workRead, sel.workWrite, |f.index|);
    AllCaught(f, sel.workRead, f.masterRead, false);
    AllCaught(f, sel.workWrite, f.masterWrite, true);
  }

  /** The events a select() result makes ready, in index order. */
  function ReadyEvents(s: State, sel: Select): seq<Ref>
    requires Shape(s)
  {
    if sel.Failed? then [] else Hits(s, sel.workRead, sel.workWrite, |s.index|)
  }

  lemma PostedRegistry(s: State, t: State, h: seq<Ref>)
    requires Shape(s) && Registry(s) && Shape(t) && Posted(s, t, h)
    ensures Registry(t) && forall q :: Registered(t, q) <==> Registered(s, q)
  {
    hide Pick;
    assert forall q :: q in s.events ==> t.events[q].index == s.events[q].index && t.events[q].active == s.events[q].active;
    assert forall q :: Registered(t, q) <==> Registered(s, q);
  }

  lemma PostedTable(s: State, t: State, h: seq<Ref>)
    requires Table(s) && Posted(s, t, h)
    ensures Table(t)
  {
  }

  lemma PostedKeeps(s: State, t: State, h: seq<Ref>)
    requires Connections(s) && Shape(t) && Posted(s, t, h)
    ensures Connections(t)
  {
    hide Bits, Cache, Role, Roles, Pick, Registry, Registered, Table;
    PostedRegistry(s, t, h);
    PostedTable(s, t, h);
    PostedRoles(s, t, h);
    RecordBits(s, t, s.masterRead, false);
    RecordBits(s, t, s.masterWrite, true);
    RecordCache(s, t);
  }

  lemma PostedRoles(s: State, t: State, h: seq<Ref>)
    requires Connections(s) && Shape(t) && Posted(s, t, h)
    requires forall q :: Registered(t, q) <==> Registered(s, q)
    ensures Roles(t)
  {
    forall k: nat | InUse(t, k) ensures Role(t, k) {
      assert Role(s, k);
      assert Ref(k, false) in s.events && Ref(k, true) in s.events;
    }
  }

  /** The ready events are the registered ones whose bit select() left set. */
  lemma ReadyIsFound(s: State, sel: Select)
    requires Shape(s) && Registry(s)
    ensures forall r :: r in ReadyEvents(s, sel) <==>
      sel.Reported? && Registered(s, r) && Found(s, r, sel.workRead, sel.workWrite)
    ensures Distinct(ReadyEvents(s, sel))
  {
    if sel.Reported? {
      HitsAreIndexed(s, sel.workRead, sel.workWrite, |s.index|);
      HitsDistinct(s, sel.workRead, sel.workWrite, |s.index|);
    }
  }

  /** Unless select() fails, a poll does nothing but post the ready events, each
      once and in index order. */
  lemma PollPosts(s: State, sel: Select, bad: set<int>)
    requires Connections(s) && SelectOk(FillMax(s), sel)
    requires forall p :: 0 <= p < |s.index| ==> !s.events[s.index[p]].posted
    ensures sel.Reported? ==> Posted(FillMax(s), Poll(s, sel, bad), ReadyEvents(s, sel))
  {
    if sel.Reported? {
      var f := FillMax(s);
      FillMaxKeeps(s);
      SameHits(s, sel.workRead, sel.workWrite, |s.index|);
      ScanPosts(f, sel.workRead, sel.workWrite, |s.index|);
      ReadyEqualsNready(s, sel);
      if sel.ready == 0 { assert ReadyEvents(s, sel) == []; }
    }
  }

  lemma PollKeeps(s: State, sel: Select, bad: set<int>)
    requires Connections(s) && SelectOk(FillMax(s), sel)
    requires forall p :: 0 <= p < |s.index| ==> !s.events[s.index[p]].posted
    ensures Connections(Poll(s, sel, bad))
  {
    var f := FillMax(s);
    FillMaxKeeps(s);
    if sel.Failed? {
      RepairKeeps(f, bad);
    } else {
      PollPosts(s, sel, bad);
      PostedKeeps(f, Poll(s, sel, bad), ReadyEvents(s, sel));
    }
  }

  lemma {:induction false} SameHits(s: State, workRead: set<int>, workWrite: set<int>, i: nat)
    requires Shape(s) && i <= |s.index|
    ensures Hits(FillMax(s), workRead, workWrite, i) == Hits(s, workRead, workWrite, i)
  {
    if i > 0 { SameHits(s, workRead, workWrite, i - 1); }
  }
}
