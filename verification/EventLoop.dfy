/** The daemon's event loop as the program runs it: tables of connection and event
    records updated in place, a free list threaded through `data`, a dense array of
    registered events with back-pointers, master descriptor sets and a cached
    maximum.  Every method is proved to make the transition of module `EventState`
    on the ghost value `st`, which `Valid` ties to the fields. */
module EventLoop {
  import opened EventState
  import opened EventInvariant
  import opened EventPoll
  import opened EventRun
  import opened EventMemory
  import EventTheorems

  const XDBD_OK := 0
  const XDBD_ERR := -1
  const READ_EVENT := 0
  const WRITE_EVENT := 1

  function EventCode(r: Ref): int {
    if r.write then WRITE_EVENT else READ_EVENT
  }

  class Xdbd {
    const connections: array<Connection>
    const readEvents: array<Event>
    const writeEvents: array<Event>
    const eventIndex: array<Ref>
    var freeConnections: Link
    var freeConnectionN: nat
    var nevents: nat
    var maxFd: int
    var masterRead: set<int>
    var masterWrite: set<int>
    var postedAccept: seq<Ref>
    var posted: seq<Ref>
    ghost var st: State

    ghost function Mem(): Memory
      reads this, connections, readEvents, writeEvents, eventIndex
    {
      Memory(connections[..], readEvents[..], writeEvents[..], eventIndex[..], nevents, maxFd,
             masterRead, masterWrite, freeConnections, freeConnectionN, postedAccept, posted)
    }

    ghost predicate Valid()
      reads this, connections, readEvents, writeEvents, eventIndex
    {
      && readEvents != writeEvents
      && Represents(Mem(), st)
    }

    /** The table building of xdbd_event_init_connections: `n` free slots in order, and
        event records of which only `closed` is set. */
    constructor (n: nat)
      ensures Valid() && Shape(st) && Idle(st) && |st.fds| == n
      ensures st.free == seq(n, k => k) && !st.repaired && st.index == []
    {
      connections := new Connection[n];
      readEvents := new Event[n];
      writeEvents := new Event[n];
      eventIndex := new Ref[2 * n];
      nevents, maxFd, masterRead, masterWrite := 0, -1, {}, {};
      postedAccept, posted := [], [];
      freeConnections, freeConnectionN := Null, 0;
      new;
      Build(n);
    }

    /** The loops, over tables just allocated. */
    method Build(n: nat)
      requires connections.Length == readEvents.Length == writeEvents.Length == n && eventIndex.Length == 2 * n
      requires readEvents != writeEvents && nevents == 0 && maxFd == -1 && masterRead == {} && masterWrite == {}
      requires postedAccept == [] && posted == []
      modifies this`freeConnections, this`freeConnectionN, this`st, connections, readEvents, writeEvents
      ensures Valid() && Shape(st) && Idle(st) && |st.fds| == n
      ensures st.free == seq(n, k => k) && !st.repaired && st.index == []
    {
      hide Represents, Idle, Shape, Initial, Raw;
      MarkClosed();
      freeConnections := LinkFree();
      freeConnectionN := n;
      InitialFields(Raw(readEvents[..], writeEvents[..]), n);
      st := Initial(Raw(readEvents[..], writeEvents[..]), n);
      InitialRepresents(Mem(), n);
      EventTheorems.StartIsIdle(Raw(readEvents[..], writeEvents[..]), n);
    }

    method MarkClosed()
      requires readEvents.Length == writeEvents.Length && readEvents != writeEvents
      modifies readEvents, writeEvents
      ensures forall k :: 0 <= k < readEvents.Length ==> readEvents[k].closed && writeEvents[k].closed
    {
      var i := 0;
      while i < readEvents.Length
        invariant 0 <= i <= readEvents.Length
        invariant forall k :: 0 <= k < i ==> readEvents[k].closed && writeEvents[k].closed
      {
        readEvents[i] := readEvents[i].(closed := true);
        writeEvents[i] := writeEvents[i].(closed := true);
        i := i + 1;
      }
    }

    /** Threads the free list through the whole table, last slot first. */
    method LinkFree() returns (next: Link)
      modifies connections
      ensures next == if connections.Length == 0 then Null else Slot(0)
      ensures forall k :: 0 <= k < connections.Length ==>
        connections[k] == Connection(-1, if k + 1 < connections.Length then Slot(k + 1) else Null)
    {
      var n := connections.Length;
      var i := n;
      next := Null;
      while i > 0
        invariant 0 <= i <= n && next == if i == n then Null else Slot(i)
        invariant forall k :: i <= k < n ==> connections[k] == Connection(-1, if k + 1 < n then Slot(k + 1) else Null)
      {
        i := i - 1;
        connections[i] := Connection(-1, next);
        next := Slot(i);
      }
    }

    /** Reading and assigning through a pointer to an event record. */
    function Load(ev: Ref): Event
      requires ev.slot < readEvents.Length == writeEvents.Length
      reads readEvents, writeEvents
    {
      if ev.write then writeEvents[ev.slot] else readEvents[ev.slot]
    }

    method Store(ev: Ref, e: Event)
      requires ev.slot < readEvents.Length == writeEvents.Length && readEvents != writeEvents
      modifies readEvents, writeEvents
      ensures Mem() == Put(old(Mem()), ev, e)
    {
      if ev.write {
        writeEvents[ev.slot] := e;
      } else {
        readEvents[ev.slot] := e;
      }
    }

    // ------------------------------------------------------------ registry

    method AddEvent(ev: Ref, event: int) returns (rc: int)
      requires Valid() && Shape(st) && Registry(st) && ev in st.events && InUse(st, ev.slot) && event == EventCode(ev)
      modifies this, readEvents, writeEvents, eventIndex
      ensures Valid() && Shape(st) && st == Add(old(st), ev) && rc == XDBD_OK
    {
      hide Represents, Registry, Shape, Registered, Add, SetEvent;
      Sizes(Mem(), st);
      Reading(Mem(), st, ev);
      if Load(ev).index != INVALID_INDEX {
        AddTwice(st, ev);
        return XDBD_OK;
      }
      Insert(ev, event);
      rc := XDBD_OK;
    }

    /** Sets the descriptor's bit and keeps the cached maximum. */
    method SetBit(event: int, fd: int)
      modifies this`masterRead, this`masterWrite, this`maxFd
      ensures masterRead == if event == READ_EVENT then old(masterRead) + {fd} else old(masterRead)
      ensures masterWrite == if event == WRITE_EVENT then old(masterWrite) + {fd} else old(masterWrite)
      ensures maxFd == if old(maxFd) != -1 && old(maxFd) < fd then fd else old(maxFd)
    {
      if event == READ_EVENT {
        masterRead := masterRead + {fd};
      }
      if event == WRITE_EVENT {
        masterWrite := masterWrite + {fd};
      }
      if maxFd != -1 && maxFd < fd {
        maxFd := fd;
      }
    }

    /** Appends an event that is not registered to the index. */
    method Insert(ev: Ref, event: int)
      requires Valid() && Shape(st) && Registry(st) && ev in st.events && InUse(st, ev.slot) && event == EventCode(ev)
      requires st.events[ev].index == INVALID_INDEX
      modifies this, readEvents, writeEvents, eventIndex
      ensures Valid() && Shape(st) && st == Add(old(st), ev)
    {
      hide Represents, Registry, Shape, Registered, Add, SetEvent;
      ghost var m, s := Mem(), st;
      Sizes(m, s);
      Reading(m, s, ev);
      OwnConnection(s, ev);
      AddRepresents(m, s, ev);
      var e := Load(ev);
      var fd := connections[e.data].fd;
      SetBit(event, fd);
      Store(ev, e.(active := true, index := nevents));
      eventIndex[nevents] := ev;
      nevents := nevents + 1;
      st := Add(s, ev);
      assert eventIndex[..] == m.index[m.nevents := ev];
    }

    method DelEvent(ev: Ref, event: int) returns (rc: int)
      requires Valid() && Shape(st) && Registry(st) && ev in st.events && InUse(st, ev.slot) && event == EventCode(ev)
      modifies this, readEvents, writeEvents, eventIndex
      ensures Valid() && Shape(st) && st == Del(old(st), ev)
      ensures rc == if old(st).events[ev].index == INVALID_INDEX then XDBD_ERR else XDBD_OK
    {
      hide Represents, Registry, Shape, Registered, Del;
      ghost var m, s := Mem(), st;
      Sizes(m, s);
      Reading(m, s, ev);
      OwnConnection(s, ev);
      var e := Load(ev);
      var fd := connections[e.data].fd;
      if e.index == INVALID_INDEX {
        DelTwice(s, ev);
        return XDBD_ERR;
      }
      DelRepresents(m, s, ev);
      MoveTail(e.index);
      Drop(ev, event, fd);
      st := Del(s, ev);
      rc := XDBD_OK;
    }

    /** Moves the last registered event to position `at`. */
    method MoveTail(at: int)
      requires 0 <= at < nevents <= eventIndex.Length
      requires eventIndex[nevents - 1].slot < readEvents.Length == writeEvents.Length && readEvents != writeEvents
      modifies readEvents, writeEvents, eventIndex
      ensures Mem() == Swapped(old(Mem()), at)
    {
      if at < nevents - 1 {
        var e := eventIndex[nevents - 1];
        eventIndex[at] := e;
        Store(e, Load(e).(index := at));
      }
    }

    /** Clears the bit, forgets the cache if need be, and shortens the registry. */
    method Drop(ev: Ref, event: int, fd: int)
      requires ev.slot < readEvents.Length == writeEvents.Length && readEvents != writeEvents
      requires nevents > 0 && event == EventCode(ev)
      modifies this, readEvents, writeEvents
      ensures Mem() == Dropped(old(Mem()), ev, fd) && st == old(st)
    {
      if event == READ_EVENT {
        masterRead := masterRead - {fd};
      }
      if event == WRITE_EVENT {
        masterWrite := masterWrite - {fd};
      }
      if fd == maxFd {
        maxFd := -1;
      }
      nevents := nevents - 1;
      Store(ev, Load(ev).(index := INVALID_INDEX));
    }

    // --------------------------------------------------------- connections

    method GetConnection(s: int) returns (c: Link)
      requires Valid() && Shape(st) && Table(st)
      modifies this, connections, readEvents, writeEvents
      ensures Valid() && Shape(st)
      ensures if old(st).free == [] then c == Null && st == old(st)
              else c == Slot(old(st).free[0]) && st == Get(old(st), s)
    {
      hide Represents, Shape, Table, Get;
      FreeHead(Mem(), st);
      c := freeConnections;
      if c == Null {
        return;
      }
      GetRepresents(Mem(), st, s);
      var k := c.k;
      freeConnections := connections[k].data;
      freeConnectionN := freeConnectionN - 1;
      connections[k] := Connection(s, Null);
      readEvents[k] := Wiped(Ref(k, false));
      writeEvents[k] := Wiped(Ref(k, true));
      st := Get(st, s);
    }

    method FreeConnection(k: nat)
      requires k < connections.Length
      modifies this`freeConnections, this`freeConnectionN, connections
      ensures freeConnections == Slot(k) && freeConnectionN == old(freeConnectionN) + 1
      ensures connections[..] == old(connections[..])[k := Connection(old(connections[k].fd), old(freeConnections))]
    {
      connections[k] := connections[k].(data := freeConnections);
      freeConnections := Slot(k);
      freeConnectionN := freeConnectionN + 1;
    }

    /** Marks both events closed, frees the slot and forgets the descriptor. */
    method ReturnSlot(k: nat)
      requires k < connections.Length == readEvents.Length == writeEvents.Length && readEvents != writeEvents
      modifies this`freeConnections, this`freeConnectionN, connections, readEvents, writeEvents
      ensures Mem() == Freed(old(Mem()), k)
    {
      readEvents[k] := readEvents[k].(closed := true);
      writeEvents[k] := writeEvents[k].(closed := true);
      FreeConnection(k);
      connections[k] := connections[k].(fd := -1);
    }

    method CloseConnection(k: nat)
      requires Valid() && Shape(st) && Connections(st) && k < |st.fds| && Ref(k, false) in st.events && Ref(k, true) in st.events
      modifies this, connections, readEvents, writeEvents, eventIndex
      ensures Valid() && Shape(st) && st == Close(old(st), k)
    {
      hide Represents, Connections, Shape, Registry, Registered, Del, Close, Returned;
      Sizes(Mem(), st);
      Reading(Mem(), st, Ref(k, false));
      FreeSlot(st, k);
      if connections[k].fd == -1 {
        return;
      }
      ClosePhases(st, k);
      if readEvents[k].active {
        var _ := DelEvent(Ref(k, false), READ_EVENT);
      }
      Reading(Mem(), st, Ref(k, true));
      if writeEvents[k].active {
        var _ := DelEvent(Ref(k, true), WRITE_EVENT);
      }
      ReturnRepresents(Mem(), st, k);
      ReturnSlot(k);
      st := Returned(st, k);
    }

    // ------------------------------------------------------ level handling

    method HandleReadEvent(k: nat, close: bool) returns (rc: int)
      requires Valid() && Shape(st) && Registry(st) && InUse(st, k) && Ref(k, false) in st.events
      modifies this, readEvents, writeEvents, eventIndex
      ensures Valid() && Shape(st) && st == HandleRead(old(st), k, close) && rc == XDBD_OK
    {
      hide Represents, Shape, Registry, Registered, Add, Del;
      var rev := Ref(k, false);
      Sizes(Mem(), st);
      Reading(Mem(), st, rev);
      rc := XDBD_OK;
      if !readEvents[k].active && !readEvents[k].ready {
        AddRegisters(st, rev);
        AddSame(st, rev);
        rc := AddEvent(rev, READ_EVENT);
        Reading(Mem(), st, rev);
        if readEvents[k].active && (readEvents[k].ready || close) {
          JustAdded(old(st), rev);
          rc := DelEvent(rev, READ_EVENT);
        }
      }
    }

    method HandleWriteEvent(k: nat) returns (rc: int)
      requires Valid() && Shape(st) && Registry(st) && InUse(st, k) && Ref(k, true) in st.events
      modifies this, readEvents, writeEvents, eventIndex
      ensures Valid() && Shape(st) && st == HandleWrite(old(st), k)
      ensures rc == XDBD_ERR <==>
        var e := old(st).events[Ref(k, true)]; e.active && e.ready && e.index == INVALID_INDEX
    {
      hide Represents, Shape, Registry, Registered, Add, Del;
      var wev := Ref(k, true);
      Sizes(Mem(), st);
      Reading(Mem(), st, wev);
      rc := XDBD_OK;
      if !writeEvents[k].active && !writeEvents[k].ready {
        rc := AddEvent(wev, WRITE_EVENT);
      } else if writeEvents[k].active && writeEvents[k].ready {
        rc := DelEvent(wev, WRITE_EVENT);
      }
    }

    // -------------------------------------------------------------- select

    method RepairFdSets(bad: set<int>)
      requires Valid() && Shape(st)
      modifies this
      ensures Valid() && Shape(st) && st == Repair(old(st), bad)
    {
      hide Represents, Shape;
      ghost var m := Mem();
      RepairRepresents(m, st, bad);
      if maxFd < 0 {
        RepairedNothing(masterRead, maxFd, bad);
        RepairedNothing(masterWrite, maxFd, bad);
      }
      RepairedNothing(masterRead, -1, bad);
      RepairedNothing(masterWrite, -1, bad);
      var s := 0;
      while s <= maxFd
        invariant 0 <= s && Mem() == m.(masterRead := masterRead) && st == old(st)
        invariant if maxFd < 0 then s == 0 else s <= maxFd + 1
        invariant masterRead == Repaired(m.masterRead, s - 1, bad)
      {
        if s in masterRead && s in bad {
          masterRead := masterRead - {s};
        }
        s := s + 1;
      }
      assert masterRead == Repaired(m.masterRead, maxFd, bad);
      s := 0;
      while s <= maxFd
        invariant 0 <= s && Mem() == m.(masterRead := masterRead, masterWrite := masterWrite) && st == old(st)
        invariant masterRead == Repaired(m.masterRead, maxFd, bad)
        invariant if maxFd < 0 then s == 0 else s <= maxFd + 1
        invariant masterWrite == Repaired(m.masterWrite, s - 1, bad)
      {
        if s in masterWrite && s in bad {
          masterWrite := masterWrite - {s};
        }
        s := s + 1;
      }
      assert masterWrite == Repaired(m.masterWrite, maxFd, bad);
      maxFd := -1;
      st := Repair(st, bad);
    }

    /** Recomputes the cache from the registry when it is unset. */
    method RefreshMaxFd()
      requires Valid() && Shape(st) && Owned(st)
      modifies this`maxFd, this`st
      ensures Valid() && Shape(st) && st == FillMax(old(st))
    {
      hide Represents, Shape, MaxFd;
      ghost var m, s := Mem(), st;
      Recache(m, s, MaxFd(s, |s.index|), s.masterRead, s.masterWrite);
      Sizes(m, s);
      if maxFd == -1 {
        MaxNone(s);
        var i := 0;
        while i < nevents
          invariant 0 <= i <= nevents == |s.index| && st == s && Mem() == m.(maxFd := maxFd)
          invariant maxFd == MaxFd(s, i)
        {
          Entry(m, s, i);
          MaxStep(s, i);
          OwnedAt(s, i);
          var ev := eventIndex[i];
          var c := Load(ev).data;
          if maxFd < connections[c].fd {
            maxFd := connections[c].fd;
          }
          i := i + 1;
        }
        st := s.(maxFd := maxFd);
      }
    }

    method PostEvent(ev: Ref)
      requires Valid() && Shape(st) && ev in st.events
      modifies this`postedAccept, this`posted, this`st, readEvents, writeEvents
      ensures Valid() && Shape(st) && st == Post(old(st), ev)
    {
      hide Represents, Shape, Post;
      Sizes(Mem(), st);
      Reading(Mem(), st, ev);
      PostRepresents(Mem(), st, ev);
      st := Post(st, ev);
      var e := Load(ev).(ready := true);
      Store(ev, e);
      if !e.posted {
        PutTwice(old(Mem()), ev, e, e.(posted := true));
        Store(ev, e.(posted := true));
        if e.accepted {
          postedAccept := postedAccept + [ev];
        } else {
          posted := posted + [ev];
        }
      }
    }

    /** xdbd_select_process_events; `sel` is what select() came to. */
    method ProcessEvents(sel: Select, bad: set<int>) returns (rc: int)
      requires Valid() && Shape(st) && Registry(st)
      modifies this, readEvents, writeEvents
      ensures Valid() && Shape(st) && st == Poll(old(st), sel, bad)
      ensures rc == if sel.Reported? && sel.ready != 0 then XDBD_OK else XDBD_ERR
    {
      hide Represents, Shape, Registry, Scan, Repair, Post, FillMax;
      RegistryOwned(st);
      FillOwned(st);
      RefreshMaxFd();
      if sel.Failed? {
        if sel.badDescriptor {
          RepairFdSets(bad);
        }
        return XDBD_ERR;
      }
      if sel.ready == 0 {
        return XDBD_ERR;
      }
      var nready := ScanIndex(sel.workRead, sel.workWrite);
      if sel.ready != nready {
        RepairFdSets(bad);
      }
      rc := XDBD_OK;
    }

    /** Posts every registered event whose descriptor is left in its work set. */
    method ScanIndex(workRead: set<int>, workWrite: set<int>) returns (nready: nat)
      requires Valid() && Shape(st) && Owned(st)
      modifies this`postedAccept, this`posted, this`st, readEvents, writeEvents
      ensures Valid() && Shape(st) && (st, nready) == Scan(old(st), workRead, workWrite, |old(st).index|)
    {
      hide Represents, Shape, Owned, Scan, Post;
      ghost var f := st;
      Sizes(Mem(), st);
      ScanNone(f, workRead, workWrite);
      nready := 0;
      var i := 0;
      while i < nevents
        invariant 0 <= i <= nevents == |f.index| && Valid() && Shape(st) && Owned(st) && st.index == f.index
        invariant (st, nready) == Scan(f, workRead, workWrite, i)
      {
        Entry(Mem(), st, i);
        OwnedAt(st, i);
        ScanNext(f, workRead, workWrite, i);
        var ev := eventIndex[i];
        var e := Load(ev);
        var fd := connections[e.data].fd;
        var found := if e.write then fd in workWrite else fd in workRead;
        if found {
          PostOwned(st, ev);
          PostIndex(st, ev);
          PostEvent(ev);
          nready := nready + 1;
        }
        i := i + 1;
      }
    }

    // ------------------------------------------------------------- handlers

    method Assign(ev: Ref, e: Event)
      requires Valid() && Shape(st) && ev in st.events
      modifies this`st, readEvents, writeEvents
      ensures Valid() && Shape(st) && st == SetEvent(old(st), ev, e)
    {
      hide Represents, Shape, SetEvent;
      PutRepresents(Mem(), st, ev, e);
      st := SetEvent(st, ev, e);
      Store(ev, e);
    }

    ghost method Log(ev: Ref)
      requires Valid() && Shape(st)
      modifies this`st
      ensures Valid() && Shape(st) && st == old(st).(ran := old(st).ran + [ev])
    {
      hide Represents;
      Relog(Mem(), st, st.ran + [ev]);
      st := st.(ran := st.ran + [ev]);
    }

    /** xdbd_adb_init_connection, after the write event was marked ready.  Registering
        an event cannot fail, so the connection is never closed here. */
    method AdbInitConnection(k: nat)
      requires Valid() && Shape(st) && Registry(st) && InUse(st, k)
      modifies this, readEvents, writeEvents, eventIndex
      ensures Valid() && Shape(st) && st == InitConnection(old(st), k)
    {
      hide Represents, Registry, Registered, HandleRead, SetUp, Shape;
      SetUpOrder(st, k);
      SetUpRegistry(st, k);
      var r, w := Ref(k, false), Ref(k, true);
      Reading(Mem(), st, w);
      Assign(w, Load(w).(ready := true));
      Reading(Mem(), st, r);
      Assign(r, Load(r).(handler := WaitPacket));
      Reading(Mem(), st, w);
      Assign(w, Load(w).(handler := Empty));
      assert st == SetUp(old(st), k);
      var rc := HandleReadEvent(k, false);
      assert rc == XDBD_OK;
    }

    /** xdbd_event_accept; `a` is what accept() and the pools came to. */
    method EventAccept(ev: Ref, a: Accepted)
      requires Valid() && Shape(st) && Connections(st) && ev in st.events && InUse(st, ev.slot) && AcceptOk(st, a)
      modifies this, connections, readEvents, writeEvents, eventIndex
      ensures Valid() && Shape(st) && st == RunAccept(old(st), ev, a)
    {
      hide Represents, Connections, Shape, Registry, Registered, Get, InitConnection, SetEvent;
      NotReadyConnections(st, ev);
      RunAcceptUnfold(st, ev, a);
      Reading(Mem(), st, ev);
      Assign(ev, Load(ev).(ready := false));
      Log(ev);
      SetEventFacts(old(st), ev, old(st).events[ev].(ready := false));
      if a.NoSocket? {
        return;
      }
      Grantable(st, a.fd);
      var c := GetConnection(a.fd);
      if c == Null || a.NoPools? {
        return;
      }
      AdbInitConnection(c.k);
    }

    /** One step of a packet handler, on its own connection. */
    method Perform(k: nat, e: Effect)
      requires Valid() && Shape(st) && Connections(st) && InUse(st, k) && Ref(k, false) in st.events && Ref(k, true) in st.events
      modifies this, connections, readEvents, writeEvents, eventIndex
      ensures Valid() && Shape(st) && st == Apply(old(st), k, e)
    {
      hide Represents, Shape, Connections, Registry, Registered, Del, Close, HandleRead, HandleWrite, SetEvent;
      var r, w := Ref(k, false), Ref(k, true);
      Reading(Mem(), st, r);
      Reading(Mem(), st, w);
      HasRegistry(st);
      match e {
        case ReadNotReady => Assign(r, Load(r).(ready := false));
        case WriteNotReady => Assign(w, Load(w).(ready := false));
        case HandleReadEvent(close) => var _ := HandleReadEvent(k, close);
        case HandleWriteEvent => var _ := HandleWriteEvent(k);
        case BlockRead =>
          if readEvents[k].active {
            var _ := DelEvent(r, READ_EVENT);
          }
        case SetHandler(h) => Assign(r, Load(r).(handler := h));
        case CloseConnection => CloseConnection(k);
      }
    }

    /** Calls the handler of a posted event that is not an accept event. */
    method CallHandler(ev: Ref, es: seq<Effect>)
      requires Valid() && Shape(st) && Connections(st) && ev in st.events && OwnScript(es)
      requires st.events[ev].handler != Empty ==> !ev.write && PacketConnection(st, ev.slot)
      modifies this, connections, readEvents, writeEvents, eventIndex
      ensures Valid() && Shape(st) && st == RunEvent(old(st), ev, es)
    {
      hide Represents, Shape, Connections, Registry, Registered, Apply, Effects, PacketConnection, OwnScript, Local;
      Reading(Mem(), st, ev);
      Log(ev);
      Relabel(old(st), st);
      if Load(ev).handler == Empty {
        return;
      }
      ghost var s0 := st;
      var k, i := ev.slot, 0;
      SamePacket(old(st), s0, k);
      while i < |es|
        invariant 0 <= i <= |es| && Valid() && Shape(st) && k < |st.fds| == |s0.fds| && OwnScript(es[i..])
        invariant i < |es| ==> Connections(st) && PacketConnection(st, k)
        invariant Effects(st, k, es[i..]) == Effects(s0, k, es)
      {
        EffectsUnfold(st, k, es[i..]);
        OpenFacts(st, k);
        ApplyKeeps(st, k, es[i]);
        SameSize(st, Apply(st, k, es[i]), k);
        Perform(k, es[i]);
        i := i + 1;
        assert es[i - 1..][1..] == es[i..];
      }
      EventTheorems.EffectsEmpty(st, k);
    }

    // --------------------------------------------------------------- queues

    /** xdbd_event_process_posted on the accept queue. */
    method ProcessPostedAccept(accepts: seq<Accepted>)
      requires Valid() && Shape(st) && Connections(st) && Queues(st) && QueuedInUse(st) && AcceptsOk(st, accepts)
      modifies this, connections, readEvents, writeEvents, eventIndex
      ensures Valid() && Shape(st) && st == DrainAccept(old(st), accepts)
    {
      hide Represents, Shape, Connections, Queues, QueuedInUse, Registry, RunAccept, PopAccept, SetEvent, DrainAccept, AcceptsOk, InUse, AcceptOk;
      var i := 0;
      QueueFacts(Mem(), st);
      DrainAcceptUnfold(st, accepts);
      while postedAccept != []
        invariant 0 <= i <= |accepts| && Valid() && Shape(st) && postedAccept == st.acceptQueue
        invariant Connections(st) && Queues(st) && QueuedInUse(st) && AcceptsOk(st, accepts[i..])
        invariant DrainAccept(st, accepts[i..]) == DrainAccept(old(st), accepts)
        decreases |accepts| - i
      {
        DrainAcceptUnfold(st, accepts[i..]);
        RunAcceptKeeps(st, accepts[i]);
        HeadInUse(st);
        var ev := postedAccept[0];
        EventAccept(ev, accepts[i]);
        PopAcceptKeeps(st);
        DeletePostedAccept();
        QueueFacts(Mem(), st);
        i := i + 1;
        assert accepts[i - 1..][1..] == accepts[i..];
      }
      DrainAcceptUnfold(st, accepts[i..]);
    }

    /** xdbd_delete_posted_event on the head of the accept queue. */
    method DeletePostedAccept()
      requires Valid() && Shape(st) && st.acceptQueue != []
      modifies this`postedAccept, this`st, readEvents, writeEvents
      ensures Valid() && Shape(st) && st == PopAccept(old(st))
    {
      hide Represents;
      QueueFacts(Mem(), st);
      var ev := postedAccept[0];
      Reading(Mem(), st, ev);
      Assign(ev, Load(ev).(posted := false));
      QueueFacts(Mem(), st);
      Requeue(Mem(), st, postedAccept[1..], posted);
      postedAccept := postedAccept[1..];
      st := st.(acceptQueue := postedAccept);
    }

    method DeletePosted()
      requires Valid() && Shape(st) && st.eventQueue != []
      modifies this`posted, this`st, readEvents, writeEvents
      ensures Valid() && Shape(st) && st == PopEvent(old(st))
    {
      hide Represents;
      QueueFacts(Mem(), st);
      var ev := posted[0];
      Reading(Mem(), st, ev);
      Assign(ev, Load(ev).(posted := false));
      QueueFacts(Mem(), st);
      Requeue(Mem(), st, postedAccept, posted[1..]);
      posted := posted[1..];
      st := st.(eventQueue := posted);
    }

    /** xdbd_event_process_posted on the other queue. */
    method ProcessPosted(scripts: seq<seq<Effect>>)
      requires Valid() && Shape(st) && Connections(st) && Queues(st) && st.acceptQueue == [] && ScriptsOk(st, scripts)
      modifies this, connections, readEvents, writeEvents, eventIndex
      ensures Valid() && Shape(st) && st == DrainEvents(old(st), scripts)
    {
      hide Represents, Shape, Connections, Queues, Registry, RunEvent, PopEvent, SetEvent, DrainEvents, ScriptsOk, OwnScript, Handled, PacketConnection;
      var i := 0;
      QueueFacts(Mem(), st);
      DrainEventsUnfold(st, scripts);
      while posted != []
        invariant 0 <= i <= |scripts| && Valid() && Shape(st) && posted == st.eventQueue && st.acceptQueue == []
        invariant Connections(st) && Queues(st) && ScriptsOk(st, scripts[i..])
        invariant DrainEvents(st, scripts[i..]) == DrainEvents(old(st), scripts)
        decreases |scripts| - i
      {
        DrainEventsUnfold(st, scripts[i..]);
        RunEventKeeps(st, scripts[i]);
        HandledFacts(st, RunEvent(st, st.eventQueue[0], scripts[i]));
        HeadEvent(st);
        var ev := posted[0];
        CallHandler(ev, scripts[i]);
        PopEventKeeps(st);
        DeletePosted();
        QueueFacts(Mem(), st);
        i := i + 1;
        assert scripts[i - 1..][1..] == scripts[i..];
      }
      DrainEventsUnfold(st, scripts[i..]);
    }

    /** xdbd_process_events_and_timers: from an idle daemon to an idle daemon. */
    method ProcessEventsAndTimers(i: Input)
      requires Valid() && Shape(st) && Idle(st) && InputOk(st, i)
      modifies this, connections, readEvents, writeEvents, eventIndex
      ensures Valid() && Shape(st) && st == Tick(old(st), i) && Idle(st)
    {
      hide Represents, Shape, Idle, Poll, DrainAccept, DrainEvents, InputOk, Registry, ReadyEvents, Pick, Queues, Connections, AcceptsOk, ScriptsOk, QueuedInUse;
      TickPhases(st, i);
      TickKeeps(st, i);
      var _ := ProcessEvents(i.select, i.bad);
      ProcessPostedAccept(i.accepts);
      ProcessPosted(i.scripts);
    }

    /** What initialization does for a listening socket: a slot, an accept event, and
        its registration. */
    method ListenOn(fd: int) returns (rc: int)
      requires Valid() && Shape(st) && Connections(st) && fd >= 0 && fd !in st.fds
      modifies this, connections, readEvents, writeEvents, eventIndex
      ensures Valid() && Shape(st)
      ensures if old(st).free == [] then rc == XDBD_ERR && st == old(st)
              else rc == XDBD_OK && st == Listen(old(st), fd)
    {
      hide Represents, Shape, Connections, Registry, Get, Add, SetEvent, Listen;
      Grantable(st, fd);
      if st.free != [] { ListenBySteps(st, fd); }
      var c := GetConnection(fd);
      if c == Null {
        return XDBD_ERR;
      }
      var rev := Ref(c.k, false);
      Reading(Mem(), st, rev);
      SetEventFacts(st, rev, Load(rev).(accepted := true, handler := Accept));
      Assign(rev, Load(rev).(accepted := true, handler := Accept));
      rc := AddEvent(rev, READ_EVENT);
    }
  }
}
