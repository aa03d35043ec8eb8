/** The properties of the event loop that a maintainer relies on, for every state a
    run can reach. */
module EventTheorems {
  import opened EventState
  import opened EventInvariant
  import opened EventPoll
  import opened EventRun

  // ------------------------------------------------------------------ start

  /** The freshly built table is idle whatever the uncleared event memory holds. */
  lemma StartIsIdle(raw: map<Ref, Event>, n: nat)
    requires forall r: Ref :: r in raw <==> r.slot < n
    ensures Idle(Initial(raw, n))
    ensures forall r :: r in Initial(raw, n).events ==> Initial(raw, n).events[r].closed
  {
    hide Table;
    StartTable(raw, n);
  }

  lemma StartTable(raw: map<Ref, Event>, n: nat)
    requires forall r: Ref :: r in raw <==> r.slot < n
    ensures Table(Initial(raw, n))
  {
    var s := Initial(raw, n);
    forall k: nat | k < n ensures k in s.free && s.fds[k] == -1 {
      assert s.free[k] == k;
    }
  }

  /** Taking a slot for a listening socket keeps the daemon idle and registers it. */
  lemma ListenIsIdle(s: State, fd: int)
    requires Shape(s) && Idle(s) && s.free != [] && fd >= 0 && fd !in s.fds
    ensures Idle(Listen(s, fd))
    ensures var t, r := Listen(s, fd), Ref(s.free[0], false);
      Registered(t, r) && t.events[r].handler == Accept && t.fds == s.fds[r.slot := fd] && t.free == s.free[1..]
  {
    hide Connections, Registered, Queues, Role, Add, Get, Idle;
    var k := s.free[0];
    ListenFields(s, fd);
    ListenGet(s, fd);
    var t := Get(s, fd);
    var e := t.events[Ref(k, false)].(accepted := true, handler := Accept);
    MadeAccept(t, k, e);
    AddAccept(SetEvent(t, Ref(k, false), e), k);
  }

  lemma ListenFields(s: State, fd: int)
    requires Shape(s) && s.free != []
    ensures var t, r := Listen(s, fd), Ref(s.free[0], false);
      r in t.events && t.events[r].handler == Accept && t.fds == s.fds[r.slot := fd] && t.free == s.free[1..]
  {
    hide Add;
    var k := s.free[0];
    var g := Get(s, fd);
    AddPointwise(SetEvent(g, Ref(k, false), g.events[Ref(k, false)].(accepted := true, handler := Accept)), Ref(k, false));
  }

  lemma AddAccept(u: State, k: nat)
    requires Shape(u) && Idle(u) && InUse(u, k) && u.events[Ref(k, false)].handler == Accept
    ensures var t := Add(u, Ref(k, false)); Idle(t) && Registered(t, Ref(k, false))
  {
    hide Registry, Bits, Cache, Table, Role, Queues, Local, Moved;
    AddKeeps(u, Ref(k, false));
    AddRegisters(u, Ref(k, false));
    AddQueues(u, Ref(k, false));
  }

  lemma ListenGet(s: State, fd: int)
    requires Idle(s) && s.free != [] && fd >= 0 && fd !in s.fds
    ensures var t, k := Get(s, fd), s.free[0];
      && Idle(t) && InUse(t, k) && k < |t.fds|
      && t.events[Ref(k, false)] == Wiped(Ref(k, false)) && t.events[Ref(k, true)] == Wiped(Ref(k, true))
  {
    hide Registered, Registry, Bits, Cache, Table, Role;
    GetKeeps(s, fd);
  }

  /** Marking the wiped read event of an unregistered slot as an accept event. */
  lemma MadeAccept(t: State, k: nat, e: Event)
    requires Shape(t) && Idle(t) && InUse(t, k)
    requires t.events[Ref(k, false)] == Wiped(Ref(k, false)) && t.events[Ref(k, true)] == Wiped(Ref(k, true))
    requires e == Wiped(Ref(k, false)).(accepted := true, handler := Accept)
    ensures var u := SetEvent(t, Ref(k, false), e); Idle(u) && u.events[Ref(k, false)] == e && InUse(u, k)
  {
    hide Bits, Cache, Table, Role, Registry, Registered, AcceptSide, EventSide, FlagSide;
    var u := SetEvent(t, Ref(k, false), e);
    MadeRegistry(t, k, e);
    AcceptRole(t, k, e);
    forall j: nat | InUse(u, j) ensures Role(u, j) {
      if j != k { SameRole(t, u, j); }
    }
    RecordBits(t, u, t.masterRead, false);
    RecordBits(t, u, t.masterWrite, true);
    RecordCache(t, u);
    TableSame(t, u);
  }

  lemma MadeRegistry(t: State, k: nat, e: Event)
    requires Shape(t) && Registry(t) && Queues(t) && InUse(t, k) && t.acceptQueue == [] && t.eventQueue == []
    requires t.events[Ref(k, false)] == Wiped(Ref(k, false)) && e == Wiped(Ref(k, false)).(accepted := true, handler := Accept)
    ensures var u := SetEvent(t, Ref(k, false), e);
      Registry(u) && Queues(u) && forall q :: Registered(u, q) <==> Registered(t, q)
  {
    var u := SetEvent(t, Ref(k, false), e);
    assert forall q :: Registered(u, q) <==> Registered(t, q);
  }

  lemma AcceptRole(t: State, k: nat, e: Event)
    requires Shape(t) && k < |t.fds|
    requires t.events[Ref(k, true)] == Wiped(Ref(k, true))
    requires e == Wiped(Ref(k, false)).(accepted := true, handler := Accept)
    ensures Role(SetEvent(t, Ref(k, false), e), k)
  {
  }

  lemma TableSame(t: State, u: State)
    requires Table(t) && u.fds == t.fds && u.free == t.free
    ensures Table(u)
  {
  }

  lemma AddQueues(u: State, r: Ref)
    requires Shape(u) && Queues(u) && r in u.events && u.acceptQueue == [] && u.eventQueue == []
    ensures var t := Add(u, r); Queues(t) && t.acceptQueue == [] && t.eventQueue == []
  {
  }

  // ----------------------------------------------------------- whole runs

  /** In every state a run reaches, whatever subsets select() reports, the index scan
      finds exactly the reported number of events. */
  lemma RunNeverMismatches(s: State, inputs: seq<Input>, sel: Select)
    requires Shape(s) && Idle(s) && InputsOk(s, inputs)
    requires sel.Reported? && SelectOk(FillMax(Ticks(s, inputs)), sel)
    ensures var f := FillMax(Ticks(s, inputs));
      Scan(f, sel.workRead, sel.workWrite, |f.index|).1 == sel.ready
  {
    hide Connections, Queues, SelectOk, Ticks, InputsOk, Registry, Scan, Idle;
    TicksKeep(s, inputs);
    IdleUnposted(Ticks(s, inputs));
    IdleConnections(Ticks(s, inputs));
    ReadyEqualsNready(Ticks(s, inputs), sel);
  }

  lemma IdleConnections(s: State)
    requires Idle(s)
    ensures Connections(s)
  {
  }

  /** As long as select() never reports a bad descriptor the master sets are exactly
      the descriptors of the registered events, whatever the run. */
  lemma RunKeepsExactSets(s: State, inputs: seq<Input>)
    requires Shape(s) && Idle(s) && InputsOk(s, inputs) && !s.repaired
    requires forall i :: 0 <= i < |inputs| ==> inputs[i].select != Failed(true)
    ensures var t := Ticks(s, inputs);
      && (forall fd :: fd in t.masterRead <==> exists k: nat :: k < |t.fds| && t.fds[k] == fd && Registered(t, Ref(k, false)))
      && (forall fd :: fd in t.masterWrite <==> exists k: nat :: k < |t.fds| && t.fds[k] == fd && Registered(t, Ref(k, true)))
  {
    hide Ticks, InputsOk, Table, Registry, Cache, Role, Queues;
    TicksKeep(s, inputs);
    RunNeverRepairs(s, inputs);
  }

  lemma {:induction false} RunNeverRepairs(s: State, inputs: seq<Input>)
    requires Shape(s) && Idle(s) && InputsOk(s, inputs) && !s.repaired
    requires forall i :: 0 <= i < |inputs| ==> inputs[i].select != Failed(true)
    ensures !Ticks(s, inputs).repaired
    decreases |inputs|
  {
    hide Tick, Idle, InputOk, ReadyEvents, Pick;
    if inputs != [] {
      TickKeeps(s, inputs[0]);
      RunNeverRepairs(Tick(s, inputs[0]), inputs[1..]);
    }
  }

  // -------------------------------------------------------- closing a slot

  /** Closing a connection leaves neither of its events in the registry, clears its
      bit in both master sets and puts its slot on the free list once; closing it
      again before it is reused changes nothing. */
  lemma CloseIsComplete(s: State, k: nat)
    requires Connections(s) && InUse(s, k)
    ensures var t := Close(s, k);
      && Ref(k, false) !in t.index && Ref(k, true) !in t.index
      && s.fds[k] !in t.masterRead && s.fds[k] !in t.masterWrite
      && t.free == [k] + s.free && k !in s.free
      && t.events[Ref(k, false)].closed && t.events[Ref(k, true)].closed
      && Close(t, k) == t
  {
    hide Cache, Role, Del, DelActive;
    var t := Close(s, k);
    CloseKeeps(s, k);
    forall p | 0 <= p < |t.index| ensures t.index[p].slot != k {
      assert InUse(t, t.index[p].slot);
    }
    forall j: nat | j < |t.fds| ensures t.fds[j] != s.fds[k] { }
  }

  // ------------------------------------------ the loop and the handlers

  lemma DelSame(s: State, r: Ref, q: Ref)
    requires Shape(s) && r in s.events && q in s.events
    ensures var t := Del(s, r);
      q in t.events && t.events[q].handler == s.events[q].handler && t.events[q].ready == s.events[q].ready
      && t.events[q].closed == s.events[q].closed && t.fds == s.fds && t.free == s.free
  {
  }

  lemma DelActiveSame(s: State, r: Ref, q: Ref)
    requires Shape(s) && r in s.events && q in s.events
    ensures var t := DelActive(s, r);
      q in t.events && t.events[q].handler == s.events[q].handler && t.events[q].ready == s.events[q].ready
      && t.fds == s.fds && t.free == s.free
  {
  }

  lemma CloseSame(s: State, k: nat)
    requires Shape(s) && k < |s.fds|
    ensures var t, r := Close(s, k), Ref(k, false);
      r in t.events && t.events[r].handler == s.events[r].handler && t.events[r].ready == s.events[r].ready && |t.fds| == |s.fds|
  {
    hide DelActive;
    var r, w := Ref(k, false), Ref(k, true);
    DelActiveSame(s, r, r);
    DelActiveSame(DelActive(s, r), w, r);
  }

  lemma HandleReadSame(s: State, k: nat, close: bool)
    requires Shape(s) && k < |s.fds|
    ensures var t, r := HandleRead(s, k, close), Ref(k, false);
      r in t.events && t.events[r].handler == s.events[r].handler && t.events[r].ready == s.events[r].ready && |t.fds| == |s.fds|
  {
    hide Del;
    DelSame(Add(s, Ref(k, false)), Ref(k, false), Ref(k, false));
  }

  lemma HandleWriteSame(s: State, k: nat)
    requires Shape(s) && k < |s.fds|
    ensures var t, r := HandleWrite(s, k), Ref(k, false);
      r in t.events && t.events[r].handler == s.events[r].handler && t.events[r].ready == s.events[r].ready && |t.fds| == |s.fds|
  {
  }

  /** One effect changes the handler and the ready flag of the read event only as it says. */
  lemma ApplySame(s: State, k: nat, e: Effect)
    requires Shape(s) && k < |s.fds|
    ensures var t, r := Apply(s, k, e), Ref(k, false);
      && |t.fds| == |s.fds| && r in t.events
      && t.events[r].handler == (if e.SetHandler? then e.handler else s.events[r].handler)
      && t.events[r].ready == (s.events[r].ready && e != ReadNotReady)
  {
    hide Del, Close, HandleRead, HandleWrite;
    DelSame(s, Ref(k, false), Ref(k, false));
    if e.HandleReadEvent? { HandleReadSame(s, k, e.close); }
    HandleWriteSame(s, k);
    CloseSame(s, k);
  }

  lemma {:induction false} EffectsAppend(s: State, k: nat, es: seq<Effect>, e: Effect)
    requires Shape(s) && k < |s.fds|
    ensures k < |Effects(s, k, es).fds| && Effects(s, k, es + [e]) == Apply(Effects(s, k, es), k, e)
    decreases |es|
  {
    hide Apply;
    if es == [] {
      assert [e][1..] == [] && [] + [e] == [e];
    } else {
      ApplySame(s, k, es[0]);
      assert (es + [e])[1..] == es[1..] + [e];
      EffectsAppend(Apply(s, k, es[0]), k, es[1..], e);
    }
  }

  /** After a handler's script the loop holds the handler and the ready flag the handler
      itself ended with, so the next dispatch is the one the connection expects. */
  lemma {:induction false} LoopFollowsHandler(s: State, k: nat, es: seq<Effect>)
    requires Shape(s) && k < |s.fds|
    ensures var t, r := Effects(s, k, es), Ref(k, false);
      && k < |t.fds| && r in t.events
      && (t.events[r].handler, t.events[r].ready) == AfterScript(s.events[r].handler, s.events[r].ready, es)
    decreases |es|
  {
    hide Apply, Effects;
    if es == [] {
      EffectsEmpty(s, k);
    } else {
      var n := |es| - 1;
      LoopFollowsHandler(s, k, es[..n]);
      assert es == es[..n] + [es[n]];
      EffectsAppend(s, k, es[..n], es[n]);
      ApplySame(Effects(s, k, es[..n]), k, es[n]);
    }
  }

  lemma EffectsEmpty(s: State, k: nat)
    requires Shape(s) && k < |s.fds|
    ensures Effects(s, k, []) == s
  {
  }

  // ------------------------------------------------- queues and free slots

  /** The posted flag of an event in use is set exactly when it is in exactly one queue. */
  lemma PostedIffQueued(s: State, r: Ref)
    requires Shape(s) && Queues(s) && r in s.events && InUse(s, r.slot)
    ensures s.events[r].posted <==> (r in s.acceptQueue) != (r in s.eventQueue)
    ensures s.events[r].posted <==> r in s.acceptQueue || r in s.eventQueue
  {
  }

  /** No free slot has an event in the registry, its read event is in no queue, and until
      the packet handlers run neither is its write event. */
  lemma FreeSlotsAreClean(s: State, k: nat)
    requires Connections(s) && Queues(s) && k in s.free
    ensures Ref(k, false) !in s.index && Ref(k, true) !in s.index
    ensures Ref(k, false) !in s.acceptQueue && Ref(k, false) !in s.eventQueue && Ref(k, true) !in s.acceptQueue
    ensures QueuedInUse(s) ==> Ref(k, true) !in s.eventQueue
  {
  }

  /** Level handling of a read event registers it exactly when it is neither active nor
      ready and the flag does not ask for it to be taken out again; no other event enters
      or leaves the registry. */
  lemma HandleReadRegisters(s: State, k: nat, close: bool, q: Ref)
    requires Shape(s) && Registry(s) && InUse(s, k)
    ensures var r := Ref(k, false);
      Registered(HandleRead(s, k, close), q) <==>
        Registered(s, q) || (q == r && !s.events[r].active && !s.events[r].ready && !close)
  {
    hide Add, Del, Registered;
    var r := Ref(k, false);
    AddRegisters(s, r);
    AddPointwise(s, r);
    if !s.events[r].active { UnregisteredWhenInactive(s, r); }
    DelUnregisters(Add(s, r), r);
  }

  lemma UnregisteredWhenInactive(s: State, r: Ref)
    requires Shape(s) && Registry(s) && r in s.events && InUse(s, r.slot) && !s.events[r].active
    ensures s.events[r].index == INVALID_INDEX && !Registered(s, r)
  {
    assert forall p :: 0 <= p < |s.index| ==> s.events[s.index[p]].active;
  }

  /** Level handling of a write event registers an idle one and takes out a ready one. */
  lemma HandleWriteRegisters(s: State, k: nat, q: Ref)
    requires Shape(s) && Registry(s) && InUse(s, k)
    ensures var w := Ref(k, true); var e := s.events[w];
      Registered(HandleWrite(s, k), q) <==>
        if q == w && e.active == e.ready then !e.active else Registered(s, q)
  {
    hide Add, Del, Registered;
    AddRegisters(s, Ref(k, true));
    DelUnregisters(s, Ref(k, true));
  }

  /** What each effect of a packet handler does to the registry: level handling of the read event
      registers an idle one, blocking takes it out, closing takes both events out, and nothing
      else enters or leaves. */
  lemma ApplyRegisters(s: State, k: nat, e: Effect, q: Ref)
    requires Connections(s) && PacketConnection(s, k) && Sound(e)
    ensures var r, w := Ref(k, false), Ref(k, true); var er, ew := s.events[r], s.events[w];
      Registered(Apply(s, k, e), q) <==>
        match e
        case HandleReadEvent(close) => Registered(s, q) || (q == r && !er.active && !er.ready && !close)
        case HandleWriteEvent => if q == w && ew.active == ew.ready then !ew.active else Registered(s, q)
        case BlockRead => Registered(s, q) && q != r
        case CloseConnection => Registered(s, q) && q.slot != k
        case _ => Registered(s, q)
  {
    hide Table, Masters, Cache, Registered, Add, Del, HandleRead, HandleWrite, Close, SetEvent;
    var r, w := Ref(k, false), Ref(k, true);
    match e
    case HandleReadEvent(close) => HandleReadRegisters(s, k, close, q);
    case HandleWriteEvent => HandleWriteRegisters(s, k, q);
    case BlockRead =>
      if s.events[r].active { DelUnregisters(s, r); } else { UnregisteredWhenInactive(s, r); }
    case CloseConnection => CloseRegisters(s, k, q);
    case ReadNotReady => RecordRegistry(s, r, s.events[r].(ready := false));
    case WriteNotReady => RecordRegistry(s, w, s.events[w].(ready := false));
    case SetHandler(h) => RecordRegistry(s, r, s.events[r].(handler := h));
  }

  lemma CloseRegisters(s: State, k: nat, q: Ref)
    requires Connections(s) && InUse(s, k)
    ensures Registered(Close(s, k), q) <==> Registered(s, q) && q.slot != k
  {
    hide Table, Masters, Cache, Close;
    CloseKeeps(s, k);
    assert q.slot == k ==> q == Ref(k, false) || q == Ref(k, true);
  }

  /** A connection that is blocked is no longer watched: its read event is out of the registry and
      its bit is clear. */
  lemma BlockReadStops(s: State, k: nat)
    requires Connections(s) && PacketConnection(s, k)
    ensures var t := Apply(s, k, BlockRead);
      && !Registered(t, Ref(k, false)) && s.fds[k] !in t.masterRead && t.fds == s.fds
      && (forall q :: q != Ref(k, false) ==> (Registered(t, q) <==> Registered(s, q)))
  {
    hide Registered, Registry, Cache, Roles, Apply;
    var t := Apply(s, k, BlockRead);
    ApplyKeeps(s, k, BlockRead);
    forall q ensures Registered(t, q) <==> Registered(s, q) && q != Ref(k, false) {
      ApplyRegisters(s, k, BlockRead, q);
    }
    UnwatchedBit(t, k);
  }

  lemma UnwatchedBit(s: State, k: nat)
    requires Shape(s) && Table(s) && Masters(s) && InUse(s, k) && !Registered(s, Ref(k, false))
    ensures s.fds[k] !in s.masterRead
  {
  }

  lemma WriteReadyKept(s: State, k: nat, close: bool)
    requires Shape(s) && k < |s.fds|
    ensures var t, u, w := HandleRead(s, k, close), HandleWrite(s, k), Ref(k, true);
      w in t.events && w in u.events && t.events[w].ready == s.events[w].ready && u.events[w].ready == s.events[w].ready
  {
    hide Del, Add;
    var r, w := Ref(k, false), Ref(k, true);
    AddPointwise(s, r);
    AddPointwise(s, w);
    DelSame(Add(s, r), r, w);
    DelSame(s, w, w);
  }

  /** What the effects do to the write event's ready flag. */
  lemma ApplyWriteReady(s: State, k: nat, e: Effect)
    requires Shape(s) && k < |s.fds| && !e.CloseConnection?
    ensures var t, w := Apply(s, k, e), Ref(k, true);
      w in t.events && t.events[w].ready == (s.events[w].ready && e != WriteNotReady)
  {
    hide Del, HandleRead, HandleWrite, Close;
    WriteReadyKept(s, k, e.HandleReadEvent? && e.close);
    DelSame(s, Ref(k, false), Ref(k, true));
  }

  /** A script that does not block leaves the read event registered until the connection is
      closed. */
  lemma {:induction false} EffectsWatch(s: State, k: nat, es: seq<Effect>)
    requires Connections(s) && PacketConnection(s, k) && OwnScript(es) && Watching(es) && Registered(s, Ref(k, false))
    ensures var t := Effects(s, k, es); PacketConnection(t, k) ==> Registered(t, Ref(k, false))
    decreases |es|
  {
    hide Connections, PacketConnection, Local, OwnScript, Apply, Effects, Sound, Registered;
    Basics(s, k);
    if es == [] {
      EffectsEmpty(s, k);
    } else {
      var t := Apply(s, k, es[0]);
      EffectsUnfold(s, k, es);
      ApplyKeeps(s, k, es[0]);
      SameSize(s, t, k);
      if es[0].CloseConnection? {
        EffectsEmpty(t, k);
        Unserved(t, k);
      } else {
        ApplyRegisters(s, k, es[0], Ref(k, false));
        EffectsWatch(t, k, es[1..]);
      }
    }
  }

  lemma Unserved(s: State, k: nat)
    requires Shape(s) && !InUse(s, k)
    ensures !PacketConnection(s, k)
  {
  }

  /** An accept handler whose call got no socket changes nothing but its own ready flag; one whose
      pools could not be made leaves the slot taken, unregistered, and without a handler. */
  lemma AcceptDeclines(s: State, r: Ref, a: Accepted)
    requires Connections(s) && r in s.events && InUse(s, r.slot) && !a.Opened? && AcceptOk(s, a)
    ensures var t := RunAccept(s, r, a); var k := if s.free == [] then 0 else s.free[0];
      if a.NoSocket? || s.free == [] then
        t.fds == s.fds && t.free == s.free && t.index == s.index && r in t.events && !t.events[r].ready
      else
        && t.fds == s.fds[k := a.fd] && t.free == s.free[1..] && t.index == s.index
        && Ref(k, false) in t.events && t.events[Ref(k, false)].handler == NoHandler && !Registered(t, Ref(k, false))
  {
    hide Masters, Cache, Roles;
    NotReadyConnections(s, r);
    RunAcceptUnfold(s, r, a);
    var n := NotReady(s, r);
    if !a.NoSocket? && n.free != [] {
      GetRegistry(n, a.fd);
    }
  }

  /** An accepted descriptor takes the head of the free list, and its connection waits for
      a packet, registered for reading and ready for writing; every other descriptor stays
      where it was.  Without a free slot the table does not change. */
  lemma AcceptServes(s: State, r: Ref, a: Accepted)
    requires Connections(s) && r in s.events && InUse(s, r.slot) && a.Opened? && AcceptOk(s, a)
    ensures var t := RunAccept(s, r, a);
      if s.free == [] then t.fds == s.fds && t.index == s.index else
      var k := s.free[0];
      && t.fds == s.fds[k := a.fd] && t.free == s.free[1..]
      && Registered(t, Ref(k, false)) && t.events[Ref(k, false)].handler == WaitPacket
      && !t.events[Ref(k, false)].closed && !t.events[Ref(k, true)].closed
      && !Registered(t, Ref(k, true)) && t.events[Ref(k, true)].handler == Empty && t.events[Ref(k, true)].ready
  {
    hide Connections, Registered, InitConnection, Get;
    NotReadyConnections(s, r);
    RunAcceptUnfold(s, r, a);
    var n := NotReady(s, r);
    if n.free != [] {
      OpenedServes(n, a.fd);
    }
  }

  lemma OpenedServes(s: State, fd: int)
    requires Connections(s) && s.free != [] && fd >= 0 && fd !in s.fds
    ensures var k := s.free[0]; var t := InitConnection(Get(s, fd), k);
      && t.fds == s.fds[k := fd] && t.free == s.free[1..]
      && Registered(t, Ref(k, false)) && t.events[Ref(k, false)].handler == WaitPacket
      && !t.events[Ref(k, false)].closed && !t.events[Ref(k, true)].closed
      && !Registered(t, Ref(k, true)) && t.events[Ref(k, true)].handler == Empty && t.events[Ref(k, true)].ready
  {
    hide Bits, Cache, Table, Role, HandleRead;
    var k, g := s.free[0], Get(s, fd);
    GetKeeps(s, fd);
    var u := SetUp(g, k);
    SetUpKeepsRegistry(g, k);
    HandleReadRegisters(u, k, false, Ref(k, false));
    HandleReadRegisters(u, k, false, Ref(k, true));
    HandleReadElse(u, k);
  }

  lemma SetUpKeepsRegistry(s: State, k: nat)
    requires Shape(s) && Registry(s) && InUse(s, k)
    ensures Registry(SetUp(s, k)) && forall q :: Registered(SetUp(s, k), q) <==> Registered(s, q)
  {
    hide Registered, Registry;
    var w := s.events[Ref(k, true)].(ready := true, handler := Empty);
    var t := SetEvent(s, Ref(k, true), w);
    RecordRegistry(s, Ref(k, true), w);
    RecordRegistry(t, Ref(k, false), t.events[Ref(k, false)].(handler := WaitPacket));
  }

  lemma HandleReadElse(s: State, k: nat)
    requires Shape(s) && k < |s.fds|
    ensures var t, r, w := HandleRead(s, k, false), Ref(k, false), Ref(k, true);
      && t.fds == s.fds && t.free == s.free && r in t.events && w in t.events
      && t.events[r].handler == s.events[r].handler
      && t.events[w].handler == s.events[w].handler && t.events[w].ready == s.events[w].ready
      && t.events[r].closed == s.events[r].closed && t.events[w].closed == s.events[w].closed
  {
    hide Del;
    DelSame(Add(s, Ref(k, false)), Ref(k, false), Ref(k, false));
    DelSame(Add(s, Ref(k, false)), Ref(k, false), Ref(k, true));
  }

  // ------------------------------------------------------------ conservation

  /** `xs` without its element at `i`. */
  function Without(xs: seq<nat>, i: nat): (ys: seq<nat>)
    requires i < |xs|
    ensures |ys| == |xs| - 1
    ensures Distinct(xs) ==> Distinct(ys) && forall x :: x in ys <==> x in xs && x != xs[i]
  {
    var ys := xs[..i] + xs[i + 1..];
    assert forall j :: 0 <= j < |ys| ==> ys[j] == xs[if j < i then j else j + 1];
    assert forall j :: 0 <= j < |xs| && j != i ==> xs[j] == ys[if j < i then j else j - 1];
    ys
  }

  lemma {:induction false} DistinctSize(xs: seq<nat>, n: nat)
    requires Distinct(xs) && forall x :: x in xs ==> x < n
    ensures |xs| <= n
  {
    if xs != [] {
      assert xs[0] in xs;
      if n - 1 in xs {
        var i :| 0 <= i < |xs| && xs[i] == n - 1;
        DistinctSize(Without(xs, i), n - 1);
      } else {
        DistinctSize(xs, n - 1);
      }
    }
  }

  /** A registry position as a number below twice the table size. */
  function Code(r: Ref): nat {
    2 * r.slot + if r.write then 1 else 0
  }

  /** There are two events a slot and none is indexed twice, so the registry fits the
      array allocated for it, and an event not yet in it still does. */
  lemma IndexFits(s: State)
    requires Shape(s) && Registry(s)
    ensures |s.index| <= 2 * |s.fds|
    ensures forall r :: r in s.events && !Registered(s, r) ==> |s.index| < 2 * |s.fds|
  {
    var codes := seq(|s.index|, p requires 0 <= p < |s.index| => Code(s.index[p]));
    forall p, q | 0 <= p < q < |codes| ensures codes[p] != codes[q] {
      assert s.events[s.index[p]].index == p && s.events[s.index[q]].index == q;
    }
    DistinctSize(codes, 2 * |s.fds|);
    forall r | r in s.events && !Registered(s, r) ensures |s.index| < 2 * |s.fds| {
      forall p | 0 <= p < |codes| ensures codes[p] != Code(r) {
        assert s.events[s.index[p]].index == p;
      }
      DistinctSize(codes + [Code(r)], 2 * |s.fds|);
    }
  }

  /** The slots in use, in table order. */
  function UsedSlots(fds: seq<int>): (u: seq<nat>)
    ensures forall k: nat :: k in u <==> k < |fds| && fds[k] >= 0
    ensures Distinct(u)
  {
    if fds == [] then [] else
    var n := |fds| - 1;
    var u := UsedSlots(fds[..n]);
    assert forall k: nat :: k in u <==> k < n && fds[k] >= 0 by {
      assert forall k: nat :: k < n ==> fds[..n][k] == fds[k];
    }
    var v := if fds[n] >= 0 then u + [n] else u;
    assert forall k: nat :: k in v <==> k in u || (k == n && fds[n] >= 0);
    v
  }

  lemma {:induction false} FullSize(xs: seq<nat>, n: nat)
    requires Distinct(xs) && forall x: nat :: x in xs <==> x < n
    ensures |xs| == n
  {
    if n > 0 {
      assert n - 1 in xs;
      var i :| 0 <= i < |xs| && xs[i] == n - 1;
      FullSize(Without(xs, i), n - 1);
    } else {
      DistinctSize(xs, 0);
    }
  }

  /** No slot is lost: the free list and the slots in use always add up to the table. */
  lemma SlotsAreConserved(s: State)
    requires Shape(s) && Table(s)
    ensures |s.free| + |UsedSlots(s.fds)| == |s.fds|
  {
    var xs := s.free + UsedSlots(s.fds);
    forall i, j | 0 <= i < j < |xs| ensures xs[i] != xs[j] {
      if i < |s.free| <= j {
        assert xs[i] in s.free && xs[j] in UsedSlots(s.fds);
      }
    }
    forall x: nat ensures x in xs <==> x < |s.fds| {
      assert x in xs <==> x in s.free || x in UsedSlots(s.fds);
    }
    FullSize(xs, |s.fds|);
  }
}
