/** The invariant of the event loop and its preservation by every operation on a
    single connection. */
module EventInvariant {
  import opened EventState

  /** Descriptors in use are distinct, and the free list holds exactly the slots
      without a descriptor, each once. */
  ghost predicate Table(s: State) {
    && (forall k :: 0 <= k < |s.fds| ==> s.fds[k] >= -1)
    && (forall i, j :: 0 <= i < j < |s.fds| && s.fds[i] == s.fds[j] ==> s.fds[i] == -1)
    && (forall i, j :: 0 <= i < j < |s.free| ==> s.free[i] != s.free[j])
    && (forall k: nat :: k < |s.fds| ==> (k in s.free <==> s.fds[k] == -1))
  }

  /** The registry and the back-pointers agree; registered implies active. */
  ghost predicate Registry(s: State)
    requires Shape(s)
  {
    && (forall p :: 0 <= p < |s.index| ==>
          && s.events[s.index[p]].index == p
          && s.events[s.index[p]].active
          && InUse(s, s.index[p].slot))
    && (forall r :: r in s.events && InUse(s, r.slot) ==>
          && s.events[r].write == r.write && s.events[r].data == r.slot
          && (s.events[r].index == INVALID_INDEX || Registered(s, r)))
  }

  /** Every bit of a master set belongs to a registered event of that direction;
      unless the sets were ever repaired, every such event also has its bit. */
  ghost predicate Bits(s: State, master: set<int>, write: bool)
    requires Shape(s)
  {
    && (forall fd :: fd in master ==>
          exists k: nat :: k < |s.fds| && s.fds[k] == fd && Registered(s, Ref(k, write)))
    && (!s.repaired ==>
          forall k: nat :: k < |s.fds| && Registered(s, Ref(k, write)) ==> s.fds[k] in master)
  }

  ghost predicate Masters(s: State)
    requires Shape(s)
  {
    Bits(s, s.masterRead, false) && Bits(s, s.masterWrite, true)
  }

  /** `m` is the largest descriptor of a registered event. */
  ghost predicate Top(s: State, m: int)
    requires Shape(s)
  {
    && (exists r :: Registered(s, r) && Fd(s, r) == m)
    && (forall r :: Registered(s, r) ==> Fd(s, r) <= m)
  }

  ghost predicate Cache(s: State)
    requires Shape(s)
  {
    s.maxFd == -1 || Top(s, s.maxFd)
  }

  /** Which handlers an in-use connection's events can hold: a listening one, a
      packet connection, or one whose set-up was abandoned. */
  ghost predicate Role(s: State, k: nat)
    requires Shape(s) && k < |s.fds|
  {
    var r, w := s.events[Ref(k, false)], s.events[Ref(k, true)];
    && (r.accepted <==> r.handler == Accept)
    && !w.accepted
    && (PacketHandler(r.handler) ==> w.handler == Empty)
    && (!PacketHandler(r.handler) ==> !Registered(s, Ref(k, true)))
    && (!PacketHandler(r.handler) && r.handler != Accept ==> !Registered(s, Ref(k, false)))
    && r.handler != Empty
  }

  ghost predicate Roles(s: State)
    requires Shape(s)
  {
    forall k: nat :: InUse(s, k) ==> Role(s, k)
  }

  ghost predicate Connections(s: State) {
    Shape(s) && Table(s) && Registry(s) && Masters(s) && Cache(s) && Roles(s)
  }

  // ---------------------------------------------- the registry as a set

  lemma AddRegisters(s: State, r: Ref)
    requires Shape(s) && Registry(s) && r in s.events && InUse(s, r.slot)
    ensures Registry(Add(s, r))
    ensures forall q :: Registered(Add(s, r), q) <==> Registered(s, q) || q == r
  {
    var t := Add(s, r);
    if s.events[r].index == INVALID_INDEX {
      assert t.index[|s.index|] == r;
      forall p | 0 <= p < |s.index| ensures s.index[p] != r { }
      forall q ensures Registered(t, q) <==> Registered(s, q) || q == r { }
    }
  }

  /** What swap-with-last deletion does to each event and each position. */
  lemma DelPointwise(s: State, r: Ref)
    requires Shape(s) && Registry(s) && Registered(s, r)
    ensures var t, at, last := Del(s, r), s.events[r].index, |s.index| - 1;
      && |t.index| == last
      && (forall p :: 0 <= p < last ==> t.index[p] == if p == at then s.index[last] else s.index[p])
      && t.events[r] == s.events[r].(index := INVALID_INDEX)
      && (forall q :: q in s.events && q != r ==>
            t.events[q] == if q == s.index[last] then s.events[q].(index := at) else s.events[q])
      && t.events.Keys == s.events.Keys
      && t.masterRead == (if r.write then s.masterRead else s.masterRead - {Fd(s, r)})
      && t.masterWrite == (if r.write then s.masterWrite - {Fd(s, r)} else s.masterWrite)
      && t.maxFd == (if Fd(s, r) == s.maxFd then -1 else s.maxFd)
      && t.fds == s.fds && t.free == s.free && t.repaired == s.repaired && t.ran == s.ran
      && t.acceptQueue == s.acceptQueue && t.eventQueue == s.eventQueue
  {
  }

  lemma DelRegistered(s: State, r: Ref, q: Ref)
    requires Shape(s) && Registry(s) && Registered(s, r) && q in s.events
    ensures Registered(Del(s, r), q) <==> Registered(s, q) && q != r
  {
    DelPointwise(s, r);
    var t, last := Del(s, r), |s.index| - 1;
    var at := t.events[q].index;
    if q != r && 0 <= at < last {
      assert s.events[s.index[at]].index == at;
    }
  }

  lemma DelKeepsRegistry(s: State, r: Ref)
    requires Shape(s) && Registry(s) && Registered(s, r)
    ensures Registry(Del(s, r))
  {
    DelPointwise(s, r);
    var t, at := Del(s, r), s.events[r].index;
    forall p | 0 <= p < |t.index|
      ensures t.events[t.index[p]].index == p && t.events[t.index[p]].active && InUse(t, t.index[p].slot)
    {
      var q := t.index[p];
      assert q == s.index[if p == at then |s.index| - 1 else p];
    }
    forall q | q in t.events && InUse(t, q.slot)
      ensures t.events[q].write == q.write && (t.events[q].index == INVALID_INDEX || Registered(t, q))
    {
      DelRegistered(s, r, q);
    }
  }

  lemma DelUnregisters(s: State, r: Ref)
    requires Shape(s) && Registry(s) && r in s.events && InUse(s, r.slot)
    ensures Registry(Del(s, r))
    ensures forall q :: Registered(Del(s, r), q) <==> Registered(s, q) && q != r
  {
    if s.events[r].index != INVALID_INDEX {
      DelKeepsRegistry(s, r);
      forall q ensures Registered(Del(s, r), q) <==> Registered(s, q) && q != r {
        if q in s.events { DelRegistered(s, r, q); }
      }
    }
  }

  // ------------------------------------------- operations on one connection

  /** `t` differs from `s` only in the connection in slot `k`, except that other
      events may have been moved inside the registry. */
  ghost predicate Elsewhere(s: State, t: State, k: nat)
    requires Shape(s) && Shape(t)
  {
    && |t.fds| == |s.fds|
    && t.events.Keys == s.events.Keys
    && (forall j :: 0 <= j < |s.fds| && j != k ==> t.fds[j] == s.fds[j])
    && (forall r :: r in s.events && r.slot != k ==>
          && t.events[r].(index := s.events[r].index) == s.events[r]
          && (Registered(t, r) <==> Registered(s, r)))
    && t.acceptQueue == s.acceptQueue && t.eventQueue == s.eventQueue && t.ran == s.ran
    && t.repaired == s.repaired
  }

  /** ... and in slot `k` the posting state and the write handler are as before. */
  ghost predicate Local(s: State, t: State, k: nat)
    requires Shape(s) && Shape(t)
  {
    && Elsewhere(s, t, k)
    && (forall r :: r in s.events && r.slot == k ==>
          && t.events[r].posted == s.events[r].posted
          && t.events[r].accepted == s.events[r].accepted
          && (r.write ==> t.events[r].handler == s.events[r].handler))
  }

  /** What registering does to each field and to each event. */
  lemma AddPointwise(s: State, r: Ref)
    requires Shape(s) && r in s.events
    ensures s.events[r].index != INVALID_INDEX ==> Add(s, r) == s
    ensures s.events[r].index == INVALID_INDEX ==>
      var t := Add(s, r);
      && t.events[r] == s.events[r].(active := true, index := |s.index|)
      && (forall q :: q in s.events && q != r ==> t.events[q] == s.events[q])
      && t.events.Keys == s.events.Keys
      && t.masterRead == (if r.write then s.masterRead else s.masterRead + {Fd(s, r)})
      && t.masterWrite == (if r.write then s.masterWrite + {Fd(s, r)} else s.masterWrite)
      && t.maxFd == (if s.maxFd != -1 && s.maxFd < Fd(s, r) then Fd(s, r) else s.maxFd)
      && t.fds == s.fds && t.free == s.free && t.repaired == s.repaired && t.ran == s.ran
      && t.acceptQueue == s.acceptQueue && t.eventQueue == s.eventQueue
  {
  }

  lemma AddBits(s: State, r: Ref, write: bool)
    requires Shape(s) && Table(s) && Registry(s) && Masters(s) && r in s.events && InUse(s, r.slot)
    ensures var t := Add(s, r); Bits(t, if write then t.masterWrite else t.masterRead, write)
  {
    hide Registered, Registry, Add;
    AddRegisters(s, r);
    AddPointwise(s, r);
    var t := Add(s, r);
    var before, after := if write then s.masterWrite else s.masterRead, if write then t.masterWrite else t.masterRead;
    forall fd | fd in after
      ensures exists k: nat :: k < |t.fds| && t.fds[k] == fd && Registered(t, Ref(k, write))
    {
      if fd in before {
        var k: nat :| k < |s.fds| && s.fds[k] == fd && Registered(s, Ref(k, write));
        assert t.fds[k] == fd && Registered(t, Ref(k, write));
      } else {
        assert t.fds[r.slot] == fd && Registered(t, Ref(r.slot, write));
      }
    }
  }

  lemma AddCache(s: State, r: Ref)
    requires Shape(s) && Registry(s) && Cache(s) && r in s.events && InUse(s, r.slot)
    ensures Cache(Add(s, r))
  {
    hide Registry, Add;
    AddRegisters(s, r);
    AddPointwise(s, r);
    var t := Add(s, r);
    if s.maxFd != -1 {
      var q :| Registered(s, q) && Fd(s, q) == s.maxFd;
      assert Registered(t, q) && Registered(t, r);
    }
  }

  /** `t` is `s` up to the registry: event `r` may have entered or left it. */
  ghost predicate Moved(s: State, t: State, r: Ref)
    requires Shape(s) && Shape(t)
  {
    && t.fds == s.fds && t.free == s.free && t.events.Keys == s.events.Keys
    && t.acceptQueue == s.acceptQueue && t.eventQueue == s.eventQueue && t.ran == s.ran && t.repaired == s.repaired
    && (forall q :: q in s.events ==>
          t.events[q] == s.events[q].(index := t.events[q].index, active := t.events[q].active))
    && (forall q :: q in s.events && q != r ==>
          && t.events[q].active == s.events[q].active
          && (Registered(t, q) <==> Registered(s, q)))
  }

  lemma MovedSelf(s: State, r: Ref)
    requires Shape(s)
    ensures Moved(s, s, r)
  {
  }

  lemma MovedRole(s: State, t: State, r: Ref, k: nat)
    requires Shape(s) && Shape(t) && Moved(s, t, r) && k < |s.fds| && Role(s, k)
    requires Registered(t, r) ==> Registered(s, r) || s.events[Ref(r.slot, false)].handler != NoHandler
    requires Registered(t, r) && r.write ==> Registered(s, r) || PacketHandler(s.events[Ref(r.slot, false)].handler)
    ensures Role(t, k)
  {
  }

  lemma MovedKeeps(s: State, t: State, r: Ref)
    requires Connections(s) && Shape(t) && Moved(s, t, r) && r in s.events && InUse(s, r.slot)
    requires Registered(t, r) ==> Registered(s, r) || s.events[Ref(r.slot, false)].handler != NoHandler
    requires Registered(t, r) && r.write ==> Registered(s, r) || PacketHandler(s.events[Ref(r.slot, false)].handler)
    ensures Table(t) && Roles(t) && Local(s, t, r.slot)
  {
    forall k: nat | InUse(t, k) ensures Role(t, k) {
      assert InUse(s, k);
      MovedRole(s, t, r, k);
    }
  }

  lemma AddMoved(s: State, r: Ref)
    requires Shape(s) && Registry(s) && r in s.events && InUse(s, r.slot)
    ensures Moved(s, Add(s, r), r)
  {
    hide Registered, Registry, InUse, Add;
    AddRegisters(s, r);
    AddPointwise(s, r);
  }

  lemma AddKeeps(s: State, r: Ref)
    requires Connections(s) && r in s.events && InUse(s, r.slot)
    requires r.write ==> PacketHandler(s.events[Ref(r.slot, false)].handler)
    requires !r.write ==> s.events[r].handler != NoHandler
    ensures Connections(Add(s, r)) && Local(s, Add(s, r), r.slot)
    ensures Moved(s, Add(s, r), r)
  {
    AddMoved(s, r);
    MovedKeeps(s, Add(s, r), r);
    AddRegisters(s, r);
    AddBits(s, r, false);
    AddBits(s, r, true);
    AddCache(s, r);
  }

  lemma DelBits(s: State, r: Ref, write: bool)
    requires Shape(s) && Table(s) && Registry(s) && Masters(s) && Registered(s, r) && InUse(s, r.slot)
    ensures var t := Del(s, r); Bits(t, if write then t.masterWrite else t.masterRead, write)
  {
    hide Registry, Del, Bits, InUse;
    DelPointwise(s, r);
    DelUnregisters(s, r);
    var t := Del(s, r);
    if write {
      BitsLess(s, t, r, s.masterWrite, t.masterWrite, true);
    } else {
      BitsLess(s, t, r, s.masterRead, t.masterRead, false);
    }
  }

  /** Taking an event out of the registry together with its bit. */
  lemma BitsLess(s: State, t: State, r: Ref, before: set<int>, after: set<int>, write: bool)
    requires Shape(s) && Shape(t) && Table(s) && Bits(s, before, write) && t.fds == s.fds && t.repaired == s.repaired
    requires r in s.events && InUse(s, r.slot) && after == (if r.write == write then before - {Fd(s, r)} else before)
    requires forall q :: Registered(t, q) <==> Registered(s, q) && q != r
    ensures Bits(t, after, write)
  {
    hide Registered;
    forall fd | fd in after
      ensures exists k: nat :: k < |t.fds| && t.fds[k] == fd && Registered(t, Ref(k, write))
    {
      var k: nat :| k < |s.fds| && s.fds[k] == fd && Registered(s, Ref(k, write));
      assert t.fds[k] == fd && Registered(t, Ref(k, write));
    }
    if !t.repaired {
      forall k: nat | k < |t.fds| && Registered(t, Ref(k, write)) ensures t.fds[k] in after {
        assert s.fds[k] == s.fds[r.slot] ==> k == r.slot;
      }
    }
  }

  lemma DelCache(s: State, r: Ref)
    requires Shape(s) && Registry(s) && Cache(s) && r in s.events && InUse(s, r.slot)
    ensures Cache(Del(s, r))
  {
    hide Registry;
    DelUnregisters(s, r);
    var t := Del(s, r);
    if s.maxFd != -1 && Fd(s, r) != s.maxFd {
      var q :| Registered(s, q) && Fd(s, q) == s.maxFd;
      assert Registered(t, q);
    }
  }

  lemma DelOther(s: State, r: Ref, q: Ref)
    requires Shape(s) && Registry(s) && r in s.events && Registered(s, r) && q in s.events
    ensures var t := Del(s, r);
      && q in t.events
      && t.events[q] == s.events[q].(index := t.events[q].index, active := t.events[q].active)
      && t.events[q].active == s.events[q].active
      && (q != r ==> (Registered(t, q) <==> Registered(s, q)))
      && (q == r ==> !Registered(t, q))
  {
    hide Registered, Registry, Del, Shape;
    DelPointwise(s, r);
    DelRegistered(s, r, q);
  }

  lemma DelMoved(s: State, r: Ref)
    requires Shape(s) && Registry(s) && r in s.events && Registered(s, r)
    ensures Moved(s, Del(s, r), r) && !Registered(Del(s, r), r)
  {
    hide Registered, Registry, Del;
    DelPointwise(s, r);
    forall q | q in s.events
      ensures var t := Del(s, r);
        && t.events[q] == s.events[q].(index := t.events[q].index, active := t.events[q].active)
        && t.events[q].active == s.events[q].active
        && (q != r ==> (Registered(t, q) <==> Registered(s, q)))
    {
      DelOther(s, r, q);
    }
    DelOther(s, r, r);
  }

  lemma DelKeeps(s: State, r: Ref)
    requires Connections(s) && r in s.events && InUse(s, r.slot)
    ensures Connections(Del(s, r)) && Local(s, Del(s, r), r.slot)
    ensures Moved(s, Del(s, r), r) && !Registered(Del(s, r), r)
  {
    hide Bits, Cache, Moved, Local, Role, Table;
    if s.events[r].index != INVALID_INDEX {
      DelMoved(s, r);
      DelBits(s, r, false);
      DelBits(s, r, true);
    } else {
      MovedSelf(s, r);
    }
    MovedKeeps(s, Del(s, r), r);
    DelUnregisters(s, r);
    DelCache(s, r);
  }

  lemma SameRole(s: State, t: State, k: nat)
    requires Shape(s) && Shape(t) && k < |s.fds| == |t.fds| && Role(s, k)
    requires forall w :: s.events[Ref(k, w)] == t.events[Ref(k, w)] && (Registered(t, Ref(k, w)) <==> Registered(s, Ref(k, w)))
    ensures Role(t, k)
  {
  }

  lemma RecordRegistry(s: State, r: Ref, e: Event)
    requires Shape(s) && Registry(s) && r in s.events
    requires e == s.events[r].(ready := e.ready, handler := e.handler, posted := e.posted)
    ensures var t := SetEvent(s, r, e);
      && Registry(t)
      && (forall q :: Registered(t, q) <==> Registered(s, q))
  {
  }

  lemma RecordElsewhere(s: State, r: Ref, e: Event)
    requires Shape(s) && r in s.events
    requires forall q :: Registered(SetEvent(s, r, e), q) <==> Registered(s, q)
    ensures Elsewhere(s, SetEvent(s, r, e), r.slot)
  {
  }

  /** Rewriting the ready flag, the posted flag or the handler of one event. */
  lemma RecordKeeps(s: State, r: Ref, e: Event)
    requires Connections(s) && r in s.events
    requires e == s.events[r].(ready := e.ready, handler := e.handler, posted := e.posted)
    requires Role(SetEvent(s, r, e), r.slot) || !InUse(s, r.slot)
    ensures var t := SetEvent(s, r, e); Connections(t) && Elsewhere(s, t, r.slot)
    ensures forall q :: Registered(SetEvent(s, r, e), q) <==> Registered(s, q)
  {
    hide Bits, Cache, Registry, Role, Registered, Elsewhere;
    var t := SetEvent(s, r, e);
    RecordRegistry(s, r, e);
    RecordElsewhere(s, r, e);
    forall k: nat | InUse(t, k) ensures Role(t, k) {
      if k != r.slot { SameRole(s, t, k); }
    }
    RecordBits(s, t, s.masterRead, false);
    RecordBits(s, t, s.masterWrite, true);
    RecordCache(s, t);
  }

  lemma RecordBits(s: State, t: State, master: set<int>, write: bool)
    requires Shape(s) && Shape(t) && t.fds == s.fds && Bits(s, master, write) && t.repaired == s.repaired
    requires forall q :: Registered(t, q) <==> Registered(s, q)
    ensures Bits(t, master, write)
  {
  }

  lemma RecordCache(s: State, t: State)
    requires Shape(s) && Shape(t) && t.fds == s.fds && t.maxFd == s.maxFd && Cache(s)
    requires forall q :: Registered(t, q) <==> Registered(s, q)
    ensures Cache(t)
  {
  }

  // ------------------------------------------------------ the free list

  lemma HeadUnregistered(s: State)
    requires Shape(s) && Table(s) && Registry(s) && s.free != []
    ensures s.free[0] < |s.fds| && s.fds[s.free[0]] == -1
    ensures forall p :: 0 <= p < |s.index| ==> s.index[p].slot != s.free[0] && s.index[p] in s.events
  {
    var k := s.free[0];
    assert k in s.free;
  }

  lemma SameIndex(s: State, t: State, k: nat)
    requires Shape(s) && Shape(t) && t.index == s.index && |t.fds| == |s.fds|
    requires forall p :: 0 <= p < |s.index| ==> s.index[p].slot != k
    requires forall q :: q in s.events && q.slot != k ==> t.events[q] == s.events[q]
    ensures !Registered(s, Ref(k, false)) && !Registered(s, Ref(k, true))
    ensures forall q :: Registered(t, q) <==> Registered(s, q)
  {
  }

  lemma GetRegistry(s: State, fd: int)
    requires Shape(s) && Table(s) && Registry(s) && s.free != [] && fd >= 0
    ensures var t, k := Get(s, fd), s.free[0];
      && Registry(t)
      && !InUse(s, k) && !Registered(s, Ref(k, false)) && !Registered(s, Ref(k, true))
      && (forall q :: Registered(t, q) <==> Registered(s, q))
  {
    hide Registered, Table;
    HeadUnregistered(s);
    SameIndex(s, Get(s, fd), s.free[0]);
  }

  lemma SlotCache(s: State, t: State, k: nat)
    requires Shape(s) && Shape(t) && |t.fds| == |s.fds| && Cache(s) && t.maxFd == s.maxFd
    requires forall j :: 0 <= j < |s.fds| && j != k ==> t.fds[j] == s.fds[j]
    requires !Registered(s, Ref(k, false)) && !Registered(s, Ref(k, true))
    requires forall q :: Registered(t, q) <==> Registered(s, q)
    ensures Cache(t)
  {
  }

  /** The head of the free list gives its slot to a descriptor not in use. */
  lemma GetKeeps(s: State, fd: int)
    requires Connections(s) && s.free != [] && fd >= 0 && fd !in s.fds
    ensures var t, k := Get(s, fd), s.free[0];
      && Connections(t) && InUse(t, k)
      && !InUse(s, k) && !Registered(s, Ref(k, false)) && !Registered(s, Ref(k, true))
    ensures forall q :: Registered(Get(s, fd), q) <==> Registered(s, q)
  {
    hide Bits, Cache, Table, Registry;
    var t, k := Get(s, fd), s.free[0];
    GetRegistry(s, fd);
    GetTable(s, fd);
    forall j: nat | InUse(t, j) ensures Role(t, j) {
      if j != k { assert InUse(s, j); SameRole(s, t, j); }
    }
    SlotBits(s, t, k, s.masterRead, false);
    SlotBits(s, t, k, s.masterWrite, true);
    SlotCache(s, t, k);
  }

  lemma GetTable(s: State, fd: int)
    requires Shape(s) && Table(s) && s.free != [] && fd >= 0 && fd !in s.fds
    ensures Table(Get(s, fd))
  {
  }

  lemma SlotBits(s: State, t: State, k: nat, master: set<int>, write: bool)
    requires Shape(s) && Shape(t) && |t.fds| == |s.fds| && Bits(s, master, write) && t.repaired == s.repaired
    requires forall j :: 0 <= j < |s.fds| && j != k ==> t.fds[j] == s.fds[j]
    requires !Registered(s, Ref(k, false)) && !Registered(s, Ref(k, true))
    requires forall q :: Registered(t, q) <==> Registered(s, q)
    ensures Bits(t, master, write)
  {
  }

  // ------------------------------------------------------------- closing

  lemma LocalTrans(s: State, t: State, u: State, k: nat)
    requires Shape(s) && Shape(t) && Shape(u) && Local(s, t, k) && Local(t, u, k)
    ensures Local(s, u, k)
  {
  }

  lemma ElsewhereTrans(s: State, t: State, u: State, k: nat)
    requires Shape(s) && Shape(t) && Shape(u) && Elsewhere(s, t, k) && Elsewhere(t, u, k)
    ensures Elsewhere(s, u, k)
  {
  }

  lemma DelActiveKeeps(s: State, r: Ref)
    requires Connections(s) && r in s.events && InUse(s, r.slot)
    ensures var t := DelActive(s, r);
      && Connections(t) && Local(s, t, r.slot) && Moved(s, t, r) && !Registered(t, r)
  {
    if s.events[r].active {
      DelKeeps(s, r);
    }
  }

  lemma UnregisteredSlot(d: State, k: nat)
    requires Shape(d) && Registry(d) && !Registered(d, Ref(k, false)) && !Registered(d, Ref(k, true))
    ensures forall p :: 0 <= p < |d.index| ==> d.index[p].slot != k
  {
    forall p | 0 <= p < |d.index| ensures d.index[p].slot != k {
      assert Registered(d, d.index[p]);
      assert d.index[p] == Ref(d.index[p].slot, true) || d.index[p] == Ref(d.index[p].slot, false);
    }
  }

  lemma ReturnedRegistry(d: State, k: nat)
    requires Shape(d) && Registry(d) && InUse(d, k)
    requires !Registered(d, Ref(k, false)) && !Registered(d, Ref(k, true))
    ensures var t := Returned(d, k); Registry(t) && forall q :: Registered(t, q) <==> Registered(d, q)
  {
    hide Registered;
    UnregisteredSlot(d, k);
    SameIndex(d, Returned(d, k), k);
  }

  lemma ReturnedTable(d: State, k: nat)
    requires Shape(d) && Table(d) && InUse(d, k)
    ensures Table(Returned(d, k))
  {
  }

  lemma ReturnedElsewhere(d: State, k: nat)
    requires Shape(d) && k < |d.fds|
    requires forall q :: Registered(Returned(d, k), q) <==> Registered(d, q)
    ensures Local(d, Returned(d, k), k)
  {
    hide Registered;
  }

  lemma ReturnedLocal(d: State, k: nat)
    requires Shape(d) && Registry(d) && Roles(d) && InUse(d, k)
    requires !Registered(d, Ref(k, false)) && !Registered(d, Ref(k, true))
    ensures Local(d, Returned(d, k), k) && Roles(Returned(d, k))
  {
    hide Registered, Registry, Role, Local, Masters, Cache, Table;
    var t := Returned(d, k);
    ReturnedRegistry(d, k);
    ReturnedElsewhere(d, k);
    forall j: nat | InUse(t, j) ensures Role(t, j) {
      assert InUse(d, j) && j != k;
      SameRole(d, t, j);
    }
  }

  lemma ReturnedKeeps(d: State, k: nat)
    requires Connections(d) && InUse(d, k)
    requires !Registered(d, Ref(k, false)) && !Registered(d, Ref(k, true))
    ensures var t := Returned(d, k);
      && Connections(t) && Local(d, t, k)
      && !Registered(t, Ref(k, false)) && !Registered(t, Ref(k, true))
  {
    hide Registered, Registry, Role, Bits, Cache, Table, Local;
    var t := Returned(d, k);
    ReturnedTable(d, k);
    ReturnedRegistry(d, k);
    ReturnedLocal(d, k);
    SlotBits(d, t, k, d.masterRead, false);
    SlotBits(d, t, k, d.masterWrite, true);
    SlotCache(d, t, k);
  }

  lemma CloseKeeps(s: State, k: nat)
    requires Connections(s) && InUse(s, k)
    ensures var t := Close(s, k);
      && Connections(t) && Local(s, t, k)
      && !Registered(t, Ref(k, false)) && !Registered(t, Ref(k, true))
      && t.fds == s.fds[k := -1] && t.free == [k] + s.free
  {
    hide Registered, Registry, Bits, Cache, Table, Role, Local, Del;
    var s1 := DelActive(s, Ref(k, false));
    DelActiveKeeps(s, Ref(k, false));
    DelActiveKeeps(s1, Ref(k, true));
    var d := DelActive(s1, Ref(k, true));
    assert !Registered(d, Ref(k, false));
    ReturnedKeeps(d, k);
    LocalTrans(s, s1, d, k);
    LocalTrans(s, d, Returned(d, k), k);
  }

  // ------------------------------------------------------ packet handlers

  /** The connection in slot `k` is in use and served by a packet handler. */
  ghost predicate PacketConnection(s: State, k: nat)
    requires Shape(s)
  {
    InUse(s, k) && PacketHandler(s.events[Ref(k, false)].handler)
  }

  lemma HandleReadKeeps(s: State, k: nat, close: bool)
    requires Connections(s) && InUse(s, k) && s.events[Ref(k, false)].handler != NoHandler
    ensures var t := HandleRead(s, k, close);
      && Connections(t) && Local(s, t, k) && t.fds == s.fds && t.free == s.free
      && t.events[Ref(k, false)].handler == s.events[Ref(k, false)].handler
  {
    var r := Ref(k, false);
    if !s.events[r].active && !s.events[r].ready {
      AddKeeps(s, r);
      var t := Add(s, r);
      if t.events[r].active && (t.events[r].ready || close) {
        DelKeeps(t, r);
        LocalTrans(s, t, Del(t, r), k);
      }
    }
  }

  lemma HandleWriteKeeps(s: State, k: nat)
    requires Connections(s) && PacketConnection(s, k)
    ensures var t := HandleWrite(s, k);
      && Connections(t) && Local(s, t, k) && t.fds == s.fds && t.free == s.free
      && t.events[Ref(k, false)].handler == s.events[Ref(k, false)].handler
  {
    var r := Ref(k, true);
    if !s.events[r].active && !s.events[r].ready {
      AddKeeps(s, r);
    } else if s.events[r].active && s.events[r].ready {
      DelKeeps(s, r);
    }
  }

  predicate Sound(e: Effect) {
    e.SetHandler? ==> PacketHandler(e.handler)
  }

  /** Every effect of a packet handler keeps the invariant and touches nothing but
      its own connection, which stays in use unless it is closed. */
  lemma ApplyKeeps(s: State, k: nat, e: Effect)
    requires Connections(s) && PacketConnection(s, k) && Sound(e)
    ensures var t := Apply(s, k, e);
      && Connections(t) && Local(s, t, k)
      && (if e.CloseConnection? then !InUse(t, k) else PacketConnection(t, k) && t.fds == s.fds && t.free == s.free)
  {
    hide Registry, Registered, Masters, Cache, Table, Elsewhere, HandleRead, HandleWrite, Close, DelActive;
    assert Role(s, k);
    var r, w := s.events[Ref(k, false)], s.events[Ref(k, true)];
    match e
    case ReadNotReady => ReadRecord(s, k, r.(ready := false));
    case WriteNotReady =>
      SetRole(s, Ref(k, true), w.(ready := false));
      RecordKeeps(s, Ref(k, true), w.(ready := false));
    case HandleReadEvent(close) => HandleReadKeeps(s, k, close);
    case HandleWriteEvent => HandleWriteKeeps(s, k);
    case BlockRead => DelActiveKeeps(s, Ref(k, false));
    case SetHandler(h) => ReadRecord(s, k, r.(handler := h));
    case CloseConnection => CloseKeeps(s, k);
  }

  lemma SetRole(s: State, r: Ref, e: Event)
    requires Shape(s) && r in s.events && Role(s, r.slot)
    requires PacketHandler(s.events[Ref(r.slot, false)].handler)
    requires e == s.events[r].(ready := e.ready, handler := e.handler)
    requires if r.write then e.handler == s.events[r].handler else PacketHandler(e.handler)
    ensures Role(SetEvent(s, r, e), r.slot)
  {
  }

  lemma ReadRecord(s: State, k: nat, e: Event)
    requires Connections(s) && PacketConnection(s, k) && PacketHandler(e.handler)
    requires var r := s.events[Ref(k, false)]; e == r.(ready := e.ready, handler := e.handler)
    ensures var t := SetEvent(s, Ref(k, false), e);
      Connections(t) && Local(s, t, k) && PacketConnection(t, k) && t.fds == s.fds && t.free == s.free
  {
    assert Role(s, k);
    SetRole(s, Ref(k, false), e);
    RecordKeeps(s, Ref(k, false), e);
  }

  /** What holds after the effects `es`: the connection is closed if they end so. */
  ghost predicate Settled(s: State, t: State, k: nat, es: seq<Effect>)
    requires Shape(s) && Shape(t)
  {
    if es != [] && es[|es| - 1].CloseConnection? then !InUse(t, k)
    else PacketConnection(t, k) && t.fds == s.fds && t.free == s.free
  }

  lemma EffectsUnfold(s: State, k: nat, es: seq<Effect>)
    requires Shape(s) && k < |s.fds| && es != [] && OwnScript(es)
    ensures var t := Apply(s, k, es[0]);
      && Sound(es[0]) && OwnScript(es[1..])
      && (k < |t.fds| ==> Effects(s, k, es) == Effects(t, k, es[1..]))
      && (es[0].CloseConnection? ==> es[1..] == [])
  {
  }

  lemma SettledStep(s: State, t: State, u: State, k: nat, es: seq<Effect>)
    requires Shape(s) && Shape(t) && Shape(u) && es != []
    requires PacketConnection(t, k) && t.fds == s.fds && t.free == s.free && Settled(t, u, k, es[1..])
    requires !es[0].CloseConnection?
    ensures Settled(s, u, k, es)
  {
  }

  lemma EffectsNone(s: State, k: nat)
    requires Shape(s) && PacketConnection(s, k)
    ensures Effects(s, k, []) == s && Local(s, s, k) && Settled(s, s, k, [])
  {
  }

  lemma {:induction false} EffectsKeep(s: State, k: nat, es: seq<Effect>)
    requires Connections(s) && PacketConnection(s, k) && OwnScript(es)
    ensures var t := Effects(s, k, es); Connections(t) && Local(s, t, k) && Settled(s, t, k, es)
    decreases |es|
  {
    hide Connections, PacketConnection, Local, Settled, OwnScript, Apply, Effects, Sound;
    Basics(s, k);
    if es == [] {
      EffectsNone(s, k);
    } else {
      var t := Apply(s, k, es[0]);
      EffectsUnfold(s, k, es);
      ApplyKeeps(s, k, es[0]);
      SameSize(s, t, k);
      if es[0].CloseConnection? {
        ClosedNow(s, t, k, es);
      } else {
        EffectsKeep(t, k, es[1..]);
        SettledStep(s, t, Effects(t, k, es[1..]), k, es);
        LocalTrans(s, t, Effects(t, k, es[1..]), k);
      }
    }
  }

  lemma Basics(s: State, k: nat)
    requires Connections(s) && PacketConnection(s, k)
    ensures Shape(s) && k < |s.fds|
  {
  }

  lemma SameSize(s: State, t: State, k: nat)
    requires Shape(s) && Shape(t) && Local(s, t, k)
    ensures |t.fds| == |s.fds|
  {
  }

  lemma ClosedNow(s: State, t: State, k: nat, es: seq<Effect>)
    requires Shape(s) && Shape(t) && k < |t.fds| && !InUse(t, k)
    requires es != [] && es[0].CloseConnection? && es[1..] == []
    ensures Effects(t, k, es[1..]) == t && Settled(s, t, k, es)
  {
  }
}
