/** The contents of the daemon's memory as a value, and when it represents a state of
    the event loop.  A pointer to a record is the record's place in its table. */
module EventMemory {
  import opened EventState
  import opened EventInvariant
  import opened EventTheorems

  /** What the `data` of a connection in the free list holds. */
  datatype Link = Null | Slot(k: nat)

  datatype Connection = Connection(fd: int, data: Link)

  datatype Memory = Memory(
    connections: seq<Connection>,
    readEvents: seq<Event>,
    writeEvents: seq<Event>,
    index: seq<Ref>,              // the whole event_index array
    nevents: nat,
    maxFd: int,
    masterRead: set<int>,
    masterWrite: set<int>,
    free: Link,
    freeN: nat,
    accepts: seq<Ref>,
    events: seq<Ref>)

  /** The link to a list of slots. */
  function Head(free: seq<nat>): Link {
    if free == [] then Null else Slot(free[0])
  }

  ghost predicate Sized(m: Memory, s: State) {
    && |m.connections| == |m.readEvents| == |m.writeEvents| == |s.fds|
    && |m.index| == 2 * |s.fds|
  }

  ghost predicate Records(m: Memory, s: State)
    requires Shape(s) && Sized(m, s)
  {
    forall k: nat :: k < |s.fds| ==>
      && m.connections[k].fd == s.fds[k]
      && m.readEvents[k] == s.events[Ref(k, false)]
      && m.writeEvents[k] == s.events[Ref(k, true)]
  }

  ghost predicate Indexed(m: Memory, s: State) {
    && m.nevents <= |m.index| && m.index[..m.nevents] == s.index
    && m.maxFd == s.maxFd && m.masterRead == s.masterRead && m.masterWrite == s.masterWrite
    && m.accepts == s.acceptQueue && m.events == s.eventQueue
  }

  /** `s.free` names the slots met by following the links from the head. */
  ghost predicate Linked(m: Memory, s: State)
    requires Shape(s) && Sized(m, s)
  {
    && m.freeN == |s.free| && m.free == Head(s.free)
    && (forall p :: 0 <= p < |s.free| ==> m.connections[s.free[p]].data == Head(s.free[p + 1..]))
  }

  ghost predicate Represents(m: Memory, s: State) {
    Shape(s) && Sized(m, s) && Records(m, s) && Indexed(m, s) && Linked(m, s)
  }

  /** Assigning through a pointer to an event record. */
  function Put(m: Memory, ev: Ref, e: Event): Memory
    requires ev.slot < |m.readEvents| == |m.writeEvents|
  {
    if ev.write then m.(writeEvents := m.writeEvents[ev.slot := e]) else m.(readEvents := m.readEvents[ev.slot := e])
  }

  function At(m: Memory, ev: Ref): Event
    requires ev.slot < |m.readEvents| == |m.writeEvents|
  {
    if ev.write then m.writeEvents[ev.slot] else m.readEvents[ev.slot]
  }

  lemma Sizes(m: Memory, s: State)
    requires Represents(m, s)
    ensures Shape(s) && |m.connections| == |m.readEvents| == |m.writeEvents| == |s.fds| && |m.index| == 2 * |s.fds|
    ensures m.nevents == |s.index| <= |m.index|
  {
  }

  /** What a handler reads through an event pointer. */
  lemma Reading(m: Memory, s: State, ev: Ref)
    requires Represents(m, s) && ev in s.events
    ensures ev.slot < |m.connections| == |m.readEvents| == |m.writeEvents|
    ensures At(m, ev) == s.events[ev] && m.connections[ev.slot].fd == s.fds[ev.slot]
  {
  }

  lemma OwnConnection(s: State, ev: Ref)
    requires Shape(s) && Registry(s) && ev in s.events && InUse(s, ev.slot)
    ensures s.events[ev].data == ev.slot
    ensures s.events[ev].index == INVALID_INDEX || 0 <= s.events[ev].index < |s.index|
  {
  }

  lemma PutRepresents(m: Memory, s: State, ev: Ref, e: Event)
    requires Represents(m, s) && ev in s.events
    ensures ev.slot < |m.readEvents| == |m.writeEvents| && Represents(Put(m, ev, e), SetEvent(s, ev, e))
    ensures SetEvent(s, ev, e).events.Keys == s.events.Keys
  {
  }

  lemma AddTwice(s: State, ev: Ref)
    requires Shape(s) && ev in s.events && s.events[ev].index != INVALID_INDEX
    ensures Add(s, ev) == s
  {
  }

  /** Changing the registry array, the caches and the sets, but no record. */
  lemma Reindex(m: Memory, s: State, index: seq<Ref>, nevents: nat, maxFd: int, r: set<int>, w: set<int>)
    requires Represents(m, s) && |index| == |m.index| && nevents <= |index|
    requires forall r :: r in index[..nevents] ==> r in s.events
    ensures Represents(
      m.(index := index, nevents := nevents, maxFd := maxFd, masterRead := r, masterWrite := w),
      s.(index := index[..nevents], maxFd := maxFd, masterRead := r, masterWrite := w))
  {
  }

  lemma AddBySteps(s: State, ev: Ref)
    requires Shape(s) && ev in s.events && s.events[ev].index == INVALID_INDEX
    ensures Add(s, ev) == SetEvent(s, ev, s.events[ev].(active := true, index := |s.index|)).(
      index := s.index + [ev],
      maxFd := if s.maxFd != -1 && s.maxFd < Fd(s, ev) then Fd(s, ev) else s.maxFd,
      masterRead := if ev.write then s.masterRead else s.masterRead + {Fd(s, ev)},
      masterWrite := if ev.write then s.masterWrite + {Fd(s, ev)} else s.masterWrite)
  {
  }

  /** What the array holds after the insertion. */
  lemma Inserted(m: Memory, s: State, ev: Ref)
    requires Represents(m, s) && ev in s.events && m.nevents < |m.index|
    ensures m.index[m.nevents := ev][..m.nevents + 1] == s.index + [ev]
    ensures forall r :: r in m.index[m.nevents := ev][..m.nevents + 1] ==> r in s.events
    ensures m.maxFd == s.maxFd && m.masterRead == s.masterRead && m.masterWrite == s.masterWrite
  {
  }

  lemma AddRepresents(m: Memory, s: State, ev: Ref)
    requires Represents(m, s) && Shape(s) && Registry(s) && ev in s.events && s.events[ev].index == INVALID_INDEX
    ensures m.nevents < |m.index| && ev.slot < |m.readEvents| == |m.writeEvents| == |s.fds|
    ensures var fd := Fd(s, ev);
      Represents(
        Put(m, ev, s.events[ev].(active := true, index := m.nevents)).(
          index := m.index[m.nevents := ev],
          nevents := m.nevents + 1,
          maxFd := if m.maxFd != -1 && m.maxFd < fd then fd else m.maxFd,
          masterRead := if ev.write then m.masterRead else m.masterRead + {fd},
          masterWrite := if ev.write then m.masterWrite + {fd} else m.masterWrite),
        Add(s, ev))
  {
    hide Represents, Registry, Registered, Add, SetEvent;
    Room(s, ev);
    Sizes(m, s);
    Inserted(m, s, ev);
    var e := s.events[ev].(active := true, index := m.nevents);
    PutRepresents(m, s, ev, e);
    var fd := Fd(s, ev);
    Reindex(Put(m, ev, e), SetEvent(s, ev, e), m.index[m.nevents := ev], m.nevents + 1,
      if m.maxFd != -1 && m.maxFd < fd then fd else m.maxFd,
      if ev.write then m.masterRead else m.masterRead + {fd},
      if ev.write then m.masterWrite + {fd} else m.masterWrite);
    AddBySteps(s, ev);
  }

  lemma Room(s: State, ev: Ref)
    requires Shape(s) && Registry(s) && ev in s.events && s.events[ev].index == INVALID_INDEX
    ensures |s.index| < 2 * |s.fds|
  {
    IndexFits(s);
  }

  // ------------------------------------------------------------- deletion

  /** The last registry entry moved to position `at`, with its back-pointer. */
  function Swapped(m: Memory, at: nat): (r: Memory)
    requires at < m.nevents <= |m.index| && m.index[m.nevents - 1].slot < |m.readEvents| == |m.writeEvents|
    ensures |r.readEvents| == |r.writeEvents| == |m.readEvents| && r.nevents == m.nevents
  {
    var last := m.nevents - 1;
    if at < last then
      Put(m, m.index[last], At(m, m.index[last]).(index := at)).(index := m.index[at := m.index[last]])
    else m
  }

  function SwappedEvents(s: State, at: nat): (t: State)
    requires Shape(s) && at < |s.index|
    ensures Shape(t) && t.events.Keys == s.events.Keys && |t.index| == |s.index| && t.fds == s.fds
  {
    var last := |s.index| - 1;
    if at < last then
      SetEvent(s, s.index[last], s.events[s.index[last]].(index := at)).(index := s.index[at := s.index[last]])
    else s
  }

  lemma TailEntry(m: Memory, s: State, at: nat)
    requires Represents(m, s) && Shape(s) && at < |s.index|
    ensures m.nevents == |s.index| <= |m.index| && m.index[m.nevents - 1] == s.index[|s.index| - 1]
    ensures m.index[at := m.index[m.nevents - 1]][..m.nevents] == s.index[at := s.index[|s.index| - 1]]
    ensures m.maxFd == s.maxFd && m.masterRead == s.masterRead && m.masterWrite == s.masterWrite
    ensures forall r :: r in s.index[at := s.index[|s.index| - 1]] ==> r in s.events
  {
  }

  lemma SwapRepresents(m: Memory, s: State, at: nat)
    requires Represents(m, s) && Shape(s) && at < |s.index|
    ensures m.nevents == |s.index| <= |m.index| && m.index[m.nevents - 1].slot < |m.readEvents| == |m.writeEvents|
    ensures Represents(Swapped(m, at), SwappedEvents(s, at))
  {
    hide Represents;
    TailEntry(m, s, at);
    var tail := s.index[|s.index| - 1];
    Reading(m, s, tail);
    if at < |s.index| - 1 {
      var e := s.events[tail].(index := at);
      PutRepresents(m, s, tail, e);
      Reindex(Put(m, tail, e), SetEvent(s, tail, e), m.index[at := tail], m.nevents, m.maxFd, m.masterRead, m.masterWrite);
    }
  }

  /** The rest of a deletion, after the swap. */
  function Dropped(m: Memory, ev: Ref, fd: int): Memory
    requires ev.slot < |m.readEvents| == |m.writeEvents| && m.nevents > 0
  {
    Put(m, ev, At(m, ev).(index := INVALID_INDEX)).(
      nevents := m.nevents - 1,
      maxFd := if fd == m.maxFd then -1 else m.maxFd,
      masterRead := if ev.write then m.masterRead else m.masterRead - {fd},
      masterWrite := if ev.write then m.masterWrite - {fd} else m.masterWrite)
  }

  lemma DelRepresents(m: Memory, s: State, ev: Ref)
    requires Represents(m, s) && Shape(s) && ev in s.events && 0 <= s.events[ev].index < |s.index|
    ensures m.nevents == |s.index| <= |m.index| && m.index[m.nevents - 1].slot < |m.readEvents| == |m.writeEvents|
    ensures ev.slot < |m.readEvents|
    ensures Represents(Dropped(Swapped(m, s.events[ev].index), ev, Fd(s, ev)), Del(s, ev))
  {
    hide Represents, Del, Dropped;
    var at := s.events[ev].index;
    SwapRepresents(m, s, at);
    Reading(m, s, ev);
    DropRepresents(Swapped(m, at), SwappedEvents(s, at), ev, Fd(s, ev));
    DelBySteps(s, ev);
  }

  function DroppedEvents(s: State, ev: Ref, fd: int): State
    requires Shape(s) && ev in s.events && s.index != []
  {
    SetEvent(s, ev, s.events[ev].(index := INVALID_INDEX)).(
      index := s.index[..|s.index| - 1],
      maxFd := if fd == s.maxFd then -1 else s.maxFd,
      masterRead := if ev.write then s.masterRead else s.masterRead - {fd},
      masterWrite := if ev.write then s.masterWrite - {fd} else s.masterWrite)
  }

  lemma DropRepresents(m: Memory, s: State, ev: Ref, fd: int)
    requires Represents(m, s) && Shape(s) && ev in s.events && s.index != []
    ensures ev.slot < |m.readEvents| == |m.writeEvents| && m.nevents > 0
    ensures Represents(Dropped(m, ev, fd), DroppedEvents(s, ev, fd))
  {
    hide Records, Linked;
    Sizes(m, s);
    Reading(m, s, ev);
    var e := s.events[ev].(index := INVALID_INDEX);
    PutRepresents(m, s, ev, e);
    assert m.index[..m.nevents - 1] == s.index[..|s.index| - 1];
    Reindex(Put(m, ev, e), SetEvent(s, ev, e), m.index, m.nevents - 1,
      if fd == m.maxFd then -1 else m.maxFd,
      if ev.write then m.masterRead else m.masterRead - {fd},
      if ev.write then m.masterWrite - {fd} else m.masterWrite);
  }

  lemma DelBySteps(s: State, ev: Ref)
    requires Shape(s) && ev in s.events && 0 <= s.events[ev].index < |s.index|
    ensures Del(s, ev) == DroppedEvents(SwappedEvents(s, s.events[ev].index), ev, Fd(s, ev))
  {
  }

  lemma DelTwice(s: State, ev: Ref)
    requires Shape(s) && ev in s.events && s.events[ev].index == INVALID_INDEX
    ensures Del(s, ev) == s
  {
  }

  // --------------------------------------------------------- connections

  /** Slot `k` taken from the head of the free list. */
  function Taken(m: Memory, k: nat, fd: int): Memory
    requires k < |m.connections| == |m.readEvents| == |m.writeEvents| && m.freeN > 0
  {
    m.(free := m.connections[k].data, freeN := m.freeN - 1,
       connections := m.connections[k := Connection(fd, Null)],
       readEvents := m.readEvents[k := Wiped(Ref(k, false))],
       writeEvents := m.writeEvents[k := Wiped(Ref(k, true))])
  }

  lemma FreeHead(m: Memory, s: State)
    requires Represents(m, s)
    ensures m.free == Head(s.free) && m.freeN == |s.free|
    ensures s.free != [] ==> m.free == Slot(s.free[0]) && s.free[0] < |s.fds| == |m.connections| == |m.readEvents| == |m.writeEvents|
    ensures s.free != [] ==> m.connections[s.free[0]].data == Head(s.free[1..])
  {
  }

  lemma GetRepresents(m: Memory, s: State, fd: int)
    requires Represents(m, s) && Shape(s) && Table(s) && s.free != []
    ensures s.free[0] < |m.connections| == |m.readEvents| == |m.writeEvents| && m.freeN > 0
    ensures Represents(Taken(m, s.free[0], fd), Get(s, fd))
  {
    hide Linked, Table, Records;
    FreeHead(m, s);
    TakenLinks(m, s, fd);
    TakenRecords(m, s, fd);
  }

  lemma TakenRecords(m: Memory, s: State, fd: int)
    requires Represents(m, s) && Shape(s) && s.free != []
    ensures s.free[0] < |m.connections| == |m.readEvents| == |m.writeEvents| && m.freeN > 0
    ensures Sized(Taken(m, s.free[0], fd), Get(s, fd)) && Records(Taken(m, s.free[0], fd), Get(s, fd))
  {
    hide Indexed, Linked, Represents, Taken, Get, Shape;
    FreeHead(m, s);
    RecordsOf(m, s);
    TakenAt(m, s.free[0], fd);
    GotAt(s, fd);
  }

  lemma TakenAt(m: Memory, k: nat, fd: int)
    requires k < |m.connections| == |m.readEvents| == |m.writeEvents| && m.freeN > 0
    ensures var n := Taken(m, k, fd);
      && |n.connections| == |n.readEvents| == |n.writeEvents| == |m.connections| && n.index == m.index
      && forall j: nat :: j < |m.connections| ==>
        && n.connections[j].fd == (if j == k then fd else m.connections[j].fd)
        && n.readEvents[j] == (if j == k then Wiped(Ref(j, false)) else m.readEvents[j])
        && n.writeEvents[j] == (if j == k then Wiped(Ref(j, true)) else m.writeEvents[j])
  {
  }

  lemma GotAt(s: State, fd: int)
    requires Shape(s) && s.free != []
    ensures s.free[0] < |s.fds|
    ensures var t, k := Get(s, fd), s.free[0];
      && |t.fds| == |s.fds|
      && forall j: nat :: j < |s.fds| ==>
        && t.fds[j] == (if j == k then fd else s.fds[j])
        && Ref(j, false) in s.events && Ref(j, true) in s.events && Ref(j, false) in t.events && Ref(j, true) in t.events
        && t.events[Ref(j, false)] == (if j == k then Wiped(Ref(j, false)) else s.events[Ref(j, false)])
        && t.events[Ref(j, true)] == (if j == k then Wiped(Ref(j, true)) else s.events[Ref(j, true)])
  {
  }

  lemma TakenLinks(m: Memory, s: State, fd: int)
    requires Represents(m, s) && Shape(s) && Table(s) && s.free != []
    ensures s.free[0] < |m.connections| == |m.readEvents| == |m.writeEvents| && m.freeN > 0
    ensures Sized(Taken(m, s.free[0], fd), Get(s, fd)) && Linked(Taken(m, s.free[0], fd), Get(s, fd))
  {
  }

  /** Slot `k` put at the head of the free list. */
  function Freed(m: Memory, k: nat): Memory
    requires k < |m.connections| == |m.readEvents| == |m.writeEvents|
  {
    m.(free := Slot(k), freeN := m.freeN + 1,
       connections := m.connections[k := Connection(-1, m.free)],
       readEvents := m.readEvents[k := m.readEvents[k].(closed := true)],
       writeEvents := m.writeEvents[k := m.writeEvents[k].(closed := true)])
  }

  lemma ReturnRepresents(m: Memory, s: State, k: nat)
    requires Represents(m, s) && Shape(s) && k < |s.fds| && k !in s.free
    ensures |m.connections| == |m.readEvents| == |m.writeEvents| == |s.fds|
    ensures Represents(Freed(m, k), Returned(s, k))
  {
    hide Linked, Records;
    ReturnLinks(m, s, k);
    ReturnRecords(m, s, k);
  }

  lemma ReturnRecords(m: Memory, s: State, k: nat)
    requires Represents(m, s) && Shape(s) && k < |s.fds|
    ensures |m.connections| == |m.readEvents| == |m.writeEvents| == |s.fds|
    ensures Sized(Freed(m, k), Returned(s, k)) && Records(Freed(m, k), Returned(s, k))
  {
    hide Linked, Indexed, Represents, Freed, Returned;
    Sizes(m, s);
    RecordsOf(m, s);
    FreedAt(m, k);
    ReturnedAt(s, k);
  }

  lemma RecordsOf(m: Memory, s: State)
    requires Represents(m, s)
    ensures Shape(s) && Sized(m, s) && Records(m, s)
  {
  }

  lemma FreedAt(m: Memory, k: nat)
    requires k < |m.connections| == |m.readEvents| == |m.writeEvents|
    ensures var f := Freed(m, k);
      && |f.connections| == |f.readEvents| == |f.writeEvents| == |m.connections| && f.index == m.index
      && forall j :: 0 <= j < |m.connections| ==>
        && f.connections[j].fd == (if j == k then -1 else m.connections[j].fd)
        && f.readEvents[j] == (if j == k then m.readEvents[j].(closed := true) else m.readEvents[j])
        && f.writeEvents[j] == (if j == k then m.writeEvents[j].(closed := true) else m.writeEvents[j])
  {
  }

  lemma ReturnedAt(s: State, k: nat)
    requires Shape(s) && k < |s.fds|
    ensures var t := Returned(s, k);
      && |t.fds| == |s.fds| && t.events.Keys == s.events.Keys
      && (forall j :: 0 <= j < |s.fds| ==> t.fds[j] == if j == k then -1 else s.fds[j])
      && (forall r :: r in s.events ==> t.events[r] == if r.slot == k then s.events[r].(closed := true) else s.events[r])
  {
    forall r | r in s.events && r.slot == k ensures r == Ref(k, false) || r == Ref(k, true) { }
  }

  lemma ReturnLinks(m: Memory, s: State, k: nat)
    requires Represents(m, s) && Shape(s) && k < |s.fds| && k !in s.free
    ensures |m.connections| == |m.readEvents| == |m.writeEvents| == |s.fds|
    ensures Sized(Freed(m, k), Returned(s, k)) && Linked(Freed(m, k), Returned(s, k))
  {
  }

  /** What closing an open connection goes through. */
  lemma ClosePhases(s: State, k: nat)
    requires Connections(s) && InUse(s, k)
    ensures Shape(s) && Registry(s)
    ensures var s1 := DelActive(s, Ref(k, false));
      && Registry(s1) && s1.fds == s.fds && s1.events.Keys == s.events.Keys
      && var s2 := DelActive(s1, Ref(k, true));
         s2.fds == s.fds && k !in s2.free && Close(s, k) == Returned(s2, k)
  {
    hide Registered, Masters, Cache, Roles, Del, Local;
    DelActiveKeeps(s, Ref(k, false));
    DelActiveKeeps(DelActive(s, Ref(k, false)), Ref(k, true));
  }

  lemma FreeSlot(s: State, k: nat)
    requires Connections(s) && k < |s.fds|
    ensures if s.fds[k] == -1 then Close(s, k) == s else InUse(s, k)
  {
  }

  // -------------------------------------------------------------- the scan

  /** What the index loops read at position `i`. */
  lemma Entry(m: Memory, s: State, i: nat)
    requires Represents(m, s) && Shape(s) && i < m.nevents
    ensures m.nevents == |s.index| <= |m.index| && |m.connections| == |m.readEvents| == |m.writeEvents| == |s.fds|
    ensures m.index[i] == s.index[i] && s.index[i] in s.events && s.index[i].slot < |m.readEvents|
    ensures At(m, s.index[i]) == s.events[s.index[i]]
    ensures m.connections[s.index[i].slot].fd == Fd(s, s.index[i])
  {
  }

  /** Registered events point at their own connection. */
  ghost predicate Owned(s: State)
    requires Shape(s)
  {
    forall p :: 0 <= p < |s.index| ==> s.events[s.index[p]].data == s.index[p].slot
  }

  lemma RegistryOwned(s: State)
    requires Shape(s) && Registry(s)
    ensures Owned(s)
  {
  }

  lemma MaxStep(s: State, i: nat)
    requires Shape(s) && i < |s.index|
    ensures MaxFd(s, i + 1) == if MaxFd(s, i) < Fd(s, s.index[i]) then Fd(s, s.index[i]) else MaxFd(s, i)
  {
  }

  lemma Recache(m: Memory, s: State, maxFd: int, r: set<int>, w: set<int>)
    requires Represents(m, s)
    ensures Represents(m.(maxFd := maxFd, masterRead := r, masterWrite := w),
                       s.(maxFd := maxFd, masterRead := r, masterWrite := w))
    ensures m.maxFd == s.maxFd && m.masterRead == s.masterRead && m.masterWrite == s.masterWrite
  {
  }

  lemma Requeue(m: Memory, s: State, accepts: seq<Ref>, events: seq<Ref>)
    requires Represents(m, s)
    requires (forall r :: r in accepts ==> r in s.events) && (forall r :: r in events ==> r in s.events)
    ensures Represents(m.(accepts := accepts, events := events), s.(acceptQueue := accepts, eventQueue := events))
  {
  }

  lemma QueueFacts(m: Memory, s: State)
    requires Represents(m, s)
    ensures m.accepts == s.acceptQueue && m.events == s.eventQueue
    ensures forall r :: r in m.accepts || r in m.events ==> r in s.events
  {
  }

  /** Posting an event. */
  function PostedMemory(m: Memory, ev: Ref): Memory
    requires ev.slot < |m.readEvents| == |m.writeEvents|
  {
    var e := At(m, ev).(ready := true);
    if e.posted then Put(m, ev, e)
    else if e.accepted then Put(m, ev, e.(posted := true)).(accepts := m.accepts + [ev])
    else Put(m, ev, e.(posted := true)).(events := m.events + [ev])
  }

  lemma PostRepresents(m: Memory, s: State, ev: Ref)
    requires Represents(m, s) && Shape(s) && ev in s.events
    ensures ev.slot < |m.readEvents| == |m.writeEvents|
    ensures Represents(PostedMemory(m, ev), Post(s, ev))
  {
    hide Represents;
    Reading(m, s, ev);
    QueueFacts(m, s);
    var e := s.events[ev].(ready := true);
    if e.posted {
      PutRepresents(m, s, ev, e);
    } else {
      var p := e.(posted := true);
      PutRepresents(m, s, ev, p);
      if e.accepted {
        Requeue(Put(m, ev, p), SetEvent(s, ev, p), m.accepts + [ev], m.events);
      } else {
        Requeue(Put(m, ev, p), SetEvent(s, ev, p), m.accepts, m.events + [ev]);
      }
    }
  }

  lemma PostOwned(s: State, ev: Ref)
    requires Shape(s) && Owned(s) && ev in s.events
    ensures Owned(Post(s, ev))
  {
  }

  lemma ScanNext(s: State, workRead: set<int>, workWrite: set<int>, i: nat)
    requires Shape(s) && i < |s.index|
    ensures var (t, n) := Scan(s, workRead, workWrite, i);
      && s.index[i] in t.events
      && Scan(s, workRead, workWrite, i + 1) ==
         if Found(t, s.index[i], workRead, workWrite) then (Post(t, s.index[i]), n + 1) else (t, n)
  {
    hide Found, Post;
  }

  lemma AddSame(s: State, r: Ref)
    requires Shape(s) && r in s.events
    ensures Add(s, r).fds == s.fds && Add(s, r).events.Keys == s.events.Keys
  {
  }

  lemma JustAdded(s: State, r: Ref)
    requires Shape(s) && Registry(s) && r in s.events && InUse(s, r.slot)
    ensures Add(s, r).events[r].index != INVALID_INDEX
  {
  }

  lemma MaxNone(s: State)
    requires Shape(s)
    ensures MaxFd(s, 0) == -1
  {
  }

  lemma OwnedAt(s: State, i: nat)
    requires Shape(s) && Owned(s) && i < |s.index|
    ensures s.events[s.index[i]].data == s.index[i].slot
  {
  }

  lemma FillOwned(s: State)
    requires Shape(s) && Owned(s)
    ensures Owned(FillMax(s)) && FillMax(s).index == s.index
  {
  }

  lemma PostIndex(s: State, ev: Ref)
    requires Shape(s) && ev in s.events
    ensures Post(s, ev).index == s.index && Post(s, ev).fds == s.fds
  {
  }

  lemma PutTwice(m: Memory, ev: Ref, d: Event, e: Event)
    requires ev.slot < |m.readEvents| == |m.writeEvents|
    ensures Put(Put(m, ev, d), ev, e) == Put(m, ev, e)
  {
  }

  lemma RepairedNothing(master: set<int>, maxFd: int, bad: set<int>)
    requires maxFd < 0
    ensures Repaired(master, maxFd, bad) == master
  {
  }

  lemma RepairRepresents(m: Memory, s: State, bad: set<int>)
    requires Represents(m, s) && Shape(s)
    ensures Represents(m.(maxFd := -1,
                          masterRead := Repaired(m.masterRead, m.maxFd, bad),
                          masterWrite := Repaired(m.masterWrite, m.maxFd, bad)), Repair(s, bad))
  {
  }

  // ------------------------------------------------------------- handlers

  /** The history of handler calls is not in memory. */
  lemma Relog(m: Memory, s: State, ran: seq<Ref>)
    requires Represents(m, s)
    ensures Represents(m, s.(ran := ran))
  {
  }

  lemma Overwrite<K, V>(f: map<K, V>, w: K, r: K, x: V, y: V, z: V)
    requires r != w
    ensures f[w := x][r := y][w := z] == f[w := z][r := y]
  {
  }

  /** The three assignments commute with the order the state function uses. */
  lemma SetUpOrder(s: State, k: nat)
    requires Shape(s) && k < |s.fds|
    ensures var r, w := Ref(k, false), Ref(k, true);
      && r in s.events && w in s.events
      && var a := SetEvent(s, w, s.events[w].(ready := true));
         var b := SetEvent(a, r, a.events[r].(handler := WaitPacket));
         SetEvent(b, w, b.events[w].(handler := Empty)) == SetUp(s, k)
  {
    var r, w := Ref(k, false), Ref(k, true);
    Overwrite(s.events, w, r, s.events[w].(ready := true), s.events[r].(handler := WaitPacket),
      s.events[w].(ready := true, handler := Empty));
  }

  lemma SetUpRegistry(s: State, k: nat)
    requires Shape(s) && Registry(s) && InUse(s, k)
    ensures var r, w := Ref(k, false), Ref(k, true);
      && r in s.events && w in s.events
      && var a := SetEvent(s, w, s.events[w].(ready := true));
         var b := SetEvent(a, r, a.events[r].(handler := WaitPacket));
         var c := SetEvent(b, w, b.events[w].(handler := Empty));
         Registry(c) && c.events.Keys == s.events.Keys
  {
    hide Registered;
    var r, w := Ref(k, false), Ref(k, true);
    RecordRegistry(s, w, s.events[w].(ready := true));
    var a := SetEvent(s, w, s.events[w].(ready := true));
    RecordRegistry(a, r, a.events[r].(handler := WaitPacket));
    var b := SetEvent(a, r, a.events[r].(handler := WaitPacket));
    RecordRegistry(b, w, b.events[w].(handler := Empty));
  }

  /** The record a handler pointer leads to. */
  lemma SetEventFacts(s: State, r: Ref, e: Event)
    requires Shape(s) && r in s.events
    ensures var t := SetEvent(s, r, e);
      t.events == s.events[r := e] && t.fds == s.fds && t.free == s.free && t.ran == s.ran
  {
  }

  lemma HasRegistry(s: State)
    requires Connections(s)
    ensures Registry(s)
  {
  }

  /** What an accept handler may rely on when it asks for a slot. */
  lemma Grantable(s: State, fd: int)
    requires Connections(s) && fd >= 0 && fd !in s.fds
    ensures Table(s)
    ensures s.free != [] ==> Registry(Get(s, fd)) && InUse(Get(s, fd), s.free[0])
  {
    hide Registered, Registry, Bits, Cache, Role;
    if s.free != [] { GetKeeps(s, fd); }
  }

  lemma OpenFacts(s: State, k: nat)
    requires Connections(s) && PacketConnection(s, k)
    ensures InUse(s, k) && k < |s.fds| && Ref(k, false) in s.events && Ref(k, true) in s.events
  {
  }

  lemma SamePacket(s: State, t: State, k: nat)
    requires Shape(s) && Shape(t) && t == s.(ran := t.ran) && PacketConnection(s, k)
    ensures PacketConnection(t, k) && k < |t.fds|
  {
  }

  // ---------------------------------------------------------------- start

  /** The event records found in two arrays, as a map. */
  ghost function Raw(readEvents: seq<Event>, writeEvents: seq<Event>): (raw: map<Ref, Event>)
    requires |readEvents| == |writeEvents|
    ensures forall r: Ref :: r in raw <==> r.slot < |readEvents|
    ensures forall k: nat :: k < |readEvents| ==>
      raw[Ref(k, false)] == readEvents[k] && raw[Ref(k, true)] == writeEvents[k]
  {
    var r := map k: nat | k < |readEvents| :: Ref(k, false) := readEvents[k];
    var w := map k: nat | k < |writeEvents| :: Ref(k, true) := writeEvents[k];
    assert forall q: Ref :: q.slot < |readEvents| ==> q == Ref(q.slot, false) || q == Ref(q.slot, true);
    assert forall k: nat :: k < |readEvents| ==> Ref(k, false) in r && Ref(k, true) in w;
    r + w
  }

  ghost predicate Unlinked(m: Memory, n: nat) {
    && |m.connections| == |m.readEvents| == |m.writeEvents| == n && |m.index| == 2 * n
    && (forall k :: 0 <= k < n ==> m.connections[k] == Connection(-1, if k + 1 < n then Slot(k + 1) else Null))
    && (forall k :: 0 <= k < n ==> m.readEvents[k].closed && m.writeEvents[k].closed)
    && m.free == (if n == 0 then Null else Slot(0)) && m.freeN == n
    && m.nevents == 0 && m.maxFd == -1 && m.masterRead == {} && m.masterWrite == {}
    && m.accepts == [] && m.events == []
  }

  lemma InitialLinks(m: Memory, n: nat)
    requires Unlinked(m, n)
    ensures var s := Initial(Raw(m.readEvents, m.writeEvents), n);
      Sized(m, s) && Indexed(m, s) && Linked(m, s)
  {
  }

  lemma InitialFields(raw: map<Ref, Event>, n: nat)
    requires forall r: Ref :: r in raw <==> r.slot < n
    ensures var s := Initial(raw, n);
      Shape(s) && |s.fds| == n && s.free == seq(n, k => k) && !s.repaired && s.index == []
  {
  }

  lemma InitialRepresents(m: Memory, n: nat)
    requires Unlinked(m, n)
    ensures Represents(m, Initial(Raw(m.readEvents, m.writeEvents), n))
  {
    hide Indexed, Linked, Records, Sized, Shape;
    InitialRecords(m, n);
    InitialLinks(m, n);
  }

  lemma InitialRecords(m: Memory, n: nat)
    requires |m.connections| == |m.readEvents| == |m.writeEvents| == n && |m.index| == 2 * n
    requires forall k :: 0 <= k < n ==> m.connections[k].fd == -1
    requires forall k :: 0 <= k < n ==> m.readEvents[k].closed && m.writeEvents[k].closed
    ensures Records(m, Initial(Raw(m.readEvents, m.writeEvents), n))
  {
  }

  lemma ListenBySteps(s: State, fd: int)
    requires Shape(s) && Connections(s) && s.free != [] && fd >= 0 && fd !in s.fds
    ensures var k, t := s.free[0], Get(s, fd);
      && Ref(k, false) in t.events && InUse(t, k)
      && var u := SetEvent(t, Ref(k, false), t.events[Ref(k, false)].(accepted := true, handler := Accept));
         Registry(u) && InUse(u, k) && Listen(s, fd) == Add(u, Ref(k, false))
  {
    hide Registered, Masters, Cache, Roles, Add, Bits;
    GetKeeps(s, fd);
    AcceptRegistry(Get(s, fd), s.free[0]);
  }

  lemma AcceptRegistry(t: State, k: nat)
    requires Shape(t) && Registry(t) && InUse(t, k) && Ref(k, false) in t.events
    ensures Registry(SetEvent(t, Ref(k, false), t.events[Ref(k, false)].(accepted := true, handler := Accept)))
  {
  }
}
