/** The event loop as a value: the connection table, the event records, the free
    list, the select registry and the two posted queues, with one transition
    function per operation of the daemon.  The classes of module `EventLoop` are
    proved against these functions, and the modules `EventInvariant` to
    `EventTheorems` prove what the daemon relies on about them. */
module EventState {

  // XDBD_INVALID_INDEX, as it reads back from the `int` field it is stored in.
  const INVALID_INDEX: int := 0xd0d0d0d0 - 0x1_0000_0000

  datatype Handler =
    NoHandler | Accept | WaitPacket | ProcessHeader | ProcessPayload | BlockReading | Empty

  /** Names an event object: the read or the write event of a connection slot. */
  datatype Ref = Ref(slot: nat, write: bool)

  /** One event record.  `data` points at its connection: the slot, once the slot has
      been handed out. */
  datatype Event = Event(
    data: int, index: int, handler: Handler,
    write: bool, ready: bool, closed: bool, accepted: bool, posted: bool, active: bool)

  /** The record xdbd_get_connection leaves: cleared, unregistered, and pointing back. */
  function Wiped(r: Ref): Event {
    Event(r.slot, INVALID_INDEX, NoHandler, r.write, false, false, false, false, false)
  }

  datatype State = State(
    fds: seq<int>,               // the descriptor of each connection slot, -1 when free
    events: map<Ref, Event>,
    free: seq<nat>,              // the free list, head first
    index: seq<Ref>,             // event_index[..nevents]
    maxFd: int,                  // the cache, -1 when it must be recomputed
    masterRead: set<int>,
    masterWrite: set<int>,
    acceptQueue: seq<Ref>,
    eventQueue: seq<Ref>,
    repaired: bool,              // whether xdbd_select_repair_fd_sets has ever run
    ran: seq<Ref>)               // the events whose handler has been called, in order

  /** Every reference held anywhere points into the connection table. */
  ghost predicate Shape(s: State) {
    && (forall r: Ref :: r in s.events <==> r.slot < |s.fds|)
    && (forall p :: 0 <= p < |s.index| ==> s.index[p] in s.events)
    && (forall p :: 0 <= p < |s.free| ==> s.free[p] < |s.fds|)
    && (forall p :: 0 <= p < |s.acceptQueue| ==> s.acceptQueue[p] in s.events)
    && (forall p :: 0 <= p < |s.eventQueue| ==> s.eventQueue[p] in s.events)
  }

  predicate InUse(s: State, k: nat) {
    k < |s.fds| && s.fds[k] >= 0
  }

  /** The event sits in the registry, at the position it records. */
  predicate Registered(s: State, r: Ref) {
    r in s.events && 0 <= s.events[r].index < |s.index| && s.index[s.events[r].index] == r
  }

  function Fd(s: State, r: Ref): int
    requires Shape(s) && r in s.events
  {
    s.fds[r.slot]
  }

  // -------------------------------------------------------------- registry

  function Add(s: State, r: Ref): (t: State)
    requires Shape(s) && r in s.events
    ensures Shape(t)
  {
    var e := s.events[r];
    if e.index != INVALID_INDEX then s else
    var fd := Fd(s, r);
    s.(masterRead := if r.write then s.masterRead else s.masterRead + {fd},
       masterWrite := if r.write then s.masterWrite + {fd} else s.masterWrite,
       maxFd := if s.maxFd != -1 && s.maxFd < fd then fd else s.maxFd,
       events := s.events[r := e.(active := true, index := |s.index|)],
       index := s.index + [r])
  }

  /** The event leaves the registry and the last entry takes its place.  An index
      that is neither invalid nor a position does not occur (`Registry`). */
  function Del(s: State, r: Ref): (t: State)
    requires Shape(s) && r in s.events
    ensures Shape(t)
  {
    var at := s.events[r].index;
    if at == INVALID_INDEX || !(0 <= at < |s.index|) then s else
    var fd := Fd(s, r);
    var last := |s.index| - 1;
    var tail := s.index[last];
    var events := if at < last then s.events[tail := s.events[tail].(index := at)] else s.events;
    s.(masterRead := if r.write then s.masterRead else s.masterRead - {fd},
       masterWrite := if r.write then s.masterWrite - {fd} else s.masterWrite,
       maxFd := if fd == s.maxFd then -1 else s.maxFd,
       events := events[r := events[r].(index := INVALID_INDEX)],
       index := if at < last then s.index[at := tail][..last] else s.index[..last])
  }

  // ----------------------------------------------------------- connections

  function Get(s: State, fd: int): (t: State)
    requires Shape(s) && s.free != []
    ensures Shape(t)
  {
    var k := s.free[0];
    s.(free := s.free[1..],
       fds := s.fds[k := fd],
       events := s.events[Ref(k, false) := Wiped(Ref(k, false))][Ref(k, true) := Wiped(Ref(k, true))])
  }

  function DelActive(s: State, r: Ref): (t: State)
    requires Shape(s) && r in s.events
    ensures Shape(t)
  {
    if s.events[r].active then Del(s, r) else s
  }

  /** xdbd_free_connection and the end of xdbd_close_connection. */
  function Returned(s: State, k: nat): (t: State)
    requires Shape(s) && k < |s.fds|
    ensures Shape(t)
  {
    s.(events := s.events[Ref(k, false) := s.events[Ref(k, false)].(closed := true)]
                         [Ref(k, true) := s.events[Ref(k, true)].(closed := true)],
       free := [k] + s.free,
       fds := s.fds[k := -1])
  }

  function Close(s: State, k: nat): (t: State)
    requires Shape(s) && k < |s.fds|
    ensures Shape(t)
  {
    if s.fds[k] == -1 then s
    else Returned(DelActive(DelActive(s, Ref(k, false)), Ref(k, true)), k)
  }

  // -------------------------------------------------------- level handling

  function SetEvent(s: State, r: Ref, e: Event): (t: State)
    requires Shape(s) && r in s.events
    ensures Shape(t)
  {
    s.(events := s.events[r := e])
  }

  /** xdbd_handle_read_event; `close` is the XDBD_CLOSE_EVENT flag. */
  function HandleRead(s: State, k: nat, close: bool): (t: State)
    requires Shape(s) && k < |s.fds|
    ensures Shape(t)
  {
    var r := Ref(k, false);
    if s.events[r].active || s.events[r].ready then s else
    var t := Add(s, r);
    if t.events[r].active && (t.events[r].ready || close) then Del(t, r) else t
  }

  function HandleWrite(s: State, k: nat): (t: State)
    requires Shape(s) && k < |s.fds|
    ensures Shape(t)
  {
    var r := Ref(k, true);
    if !s.events[r].active && !s.events[r].ready then Add(s, r)
    else if s.events[r].active && s.events[r].ready then Del(s, r)
    else s
  }

  // ---------------------------------------------------------------- select

  function MaxFd(s: State, i: nat): (m: int)
    requires Shape(s) && i <= |s.index|
  {
    if i == 0 then -1 else
    var m := MaxFd(s, i - 1);
    if m < Fd(s, s.index[i - 1]) then Fd(s, s.index[i - 1]) else m
  }

  /** The state in which select() is called: the cache has been filled. */
  function FillMax(s: State): (t: State)
    requires Shape(s)
    ensures Shape(t)
  {
    if s.maxFd == -1 then s.(maxFd := MaxFd(s, |s.index|)) else s
  }

  function Repaired(master: set<int>, maxFd: int, bad: set<int>): set<int> {
    set fd | fd in master && !(0 <= fd <= maxFd && fd in bad)
  }

  /** `bad` holds the descriptors for which getsockopt() fails. */
  function Repair(s: State, bad: set<int>): (t: State)
    requires Shape(s)
    ensures Shape(t)
  {
    s.(masterRead := Repaired(s.masterRead, s.maxFd, bad),
       masterWrite := Repaired(s.masterWrite, s.maxFd, bad),
       maxFd := -1,
       repaired := true)
  }

  /** The scan's test; the work sets are what select() left of the master sets. */
  predicate Found(s: State, r: Ref, workRead: set<int>, workWrite: set<int>)
    requires Shape(s) && r in s.events
  {
    if s.events[r].write then Fd(s, r) in workWrite else Fd(s, r) in workRead
  }

  function Post(s: State, r: Ref): (t: State)
    requires Shape(s) && r in s.events
    ensures Shape(t)
  {
    var e := s.events[r].(ready := true);
    if e.posted then SetEvent(s, r, e)
    else if e.accepted then
      SetEvent(s, r, e.(posted := true)).(acceptQueue := s.acceptQueue + [r])
    else
      SetEvent(s, r, e.(posted := true)).(eventQueue := s.eventQueue + [r])
  }

  /** The state and the count of found events after `i` steps of the index scan. */
  function Scan(s: State, workRead: set<int>, workWrite: set<int>, i: nat): (t: (State, nat))
    requires Shape(s) && i <= |s.index|
    ensures Shape(t.0) && t.0.index == s.index && t.0.fds == s.fds
  {
    if i == 0 then (s, 0) else
    var (t, n) := Scan(s, workRead, workWrite, i - 1);
    var r := s.index[i - 1];
    if Found(t, r, workRead, workWrite) then (Post(t, r), n + 1) else (t, n)
  }

  /** What one select() call may report. */
  datatype Select =
    | Failed(badDescriptor: bool)
    | Reported(workRead: set<int>, workWrite: set<int>, ready: nat)

  function Poll(s: State, sel: Select, bad: set<int>): (t: State)
    requires Shape(s)
    ensures Shape(t)
  {
    var f := FillMax(s);
    match sel
    case Failed(badDescriptor) => if badDescriptor then Repair(f, bad) else f
    case Reported(workRead, workWrite, ready) =>
      if ready == 0 then f else
      var (t, nready) := Scan(f, workRead, workWrite, |f.index|);
      if ready != nready then Repair(t, bad) else t
  }

  // -------------------------------------------------------------- handlers

  /** What one accept() call and the pools created for it come to. */
  datatype Accepted = NoSocket | NoPools(fd: int) | Opened(fd: int)

  /** The assignments that make slot `k` a packet connection. */
  function SetUp(s: State, k: nat): (t: State)
    requires Shape(s) && k < |s.fds|
    ensures Shape(t) && t.fds == s.fds
  {
    var t := SetEvent(s, Ref(k, true), s.events[Ref(k, true)].(ready := true, handler := Empty));
    SetEvent(t, Ref(k, false), t.events[Ref(k, false)].(handler := WaitPacket))
  }

  /** The write event of slot `k` is marked ready, then xdbd_adb_init_connection runs. */
  function InitConnection(s: State, k: nat): (t: State)
    requires Shape(s) && k < |s.fds|
    ensures Shape(t)
  {
    HandleRead(SetUp(s, k), k, false)
  }

  /** The accept handler.  A descriptor for which no slot is left is dropped, and a
      connection whose pools cannot be created keeps its slot, unregistered. */
  function RunAccept(s: State, r: Ref, a: Accepted): (t: State)
    requires Shape(s) && r in s.events
    ensures Shape(t)
  {
    var s0 := SetEvent(s, r, s.events[r].(ready := false)).(ran := s.ran + [r]);
    if a.NoSocket? || s0.free == [] then s0
    else if a.NoPools? then Get(s0, a.fd)
    else InitConnection(Get(s0, a.fd), s0.free[0])
  }

  /** What a packet handler does to the event loop, always on its own connection. */
  datatype Effect =
    | ReadNotReady | WriteNotReady
    | HandleReadEvent(close: bool) | HandleWriteEvent
    | BlockRead
    | SetHandler(handler: Handler)
    | CloseConnection

  function Apply(s: State, k: nat, e: Effect): (t: State)
    requires Shape(s) && k < |s.fds|
    ensures Shape(t)
  {
    match e
    case ReadNotReady => SetEvent(s, Ref(k, false), s.events[Ref(k, false)].(ready := false))
    case WriteNotReady => SetEvent(s, Ref(k, true), s.events[Ref(k, true)].(ready := false))
    case HandleReadEvent(close) => HandleRead(s, k, close)
    case HandleWriteEvent => HandleWrite(s, k)
    case BlockRead => DelActive(s, Ref(k, false))
    case SetHandler(h) => SetEvent(s, Ref(k, false), s.events[Ref(k, false)].(handler := h))
    case CloseConnection => Close(s, k)
  }

  function Effects(s: State, k: nat, es: seq<Effect>): (t: State)
    requires Shape(s) && k < |s.fds|
    ensures Shape(t)
    decreases |es|
  {
    if es == [] then s else Effects(Apply(s, k, es[0]), k, es[1..])
  }

  predicate PacketHandler(h: Handler) {
    h.WaitPacket? || h.ProcessHeader? || h.ProcessPayload? || h.BlockReading?
  }

  /** The shape of every packet handler's run: only packet handlers are installed,
      and closing the connection is the last thing done to it. */
  predicate OwnScript(es: seq<Effect>) {
    && (forall i :: 0 <= i < |es| && es[i].SetHandler? ==> PacketHandler(es[i].handler))
    && (forall i :: 0 <= i < |es| && es[i].CloseConnection? ==> i == |es| - 1)
  }

  /** A script that leaves the write event's registration alone, as all of the source's do. */
  predicate Writeless(es: seq<Effect>) {
    forall i :: 0 <= i < |es| ==> !es[i].HandleWriteEvent?
  }

  /** A script that does not stop the reading of its connection. */
  predicate Watching(es: seq<Effect>) {
    forall i :: 0 <= i < |es| ==> !es[i].BlockRead?
  }

  /** The read event's handler and ready flag after a script. */
  function AfterScript(handler: Handler, ready: bool, es: seq<Effect>): (Handler, bool) {
    if es == [] then (handler, ready) else
    var n := |es| - 1;
    var (h, r) := AfterScript(handler, ready, es[..n]);
    match es[n]
    case SetHandler(h') => (h', r)
    case ReadNotReady => (h, false)
    case _ => (h, r)
  }

  /** Calls the handler of a posted non-accept event: the empty handler of a write
      event does nothing, a read event's handler has the effects `es`. */
  function RunEvent(s: State, r: Ref, es: seq<Effect>): (t: State)
    requires Shape(s) && r in s.events
    ensures Shape(t)
  {
    var s0 := s.(ran := s.ran + [r]);
    if s.events[r].handler == Empty then s0 else Effects(s0, r.slot, es)
  }

  // ---------------------------------------------------------------- queues

  /** xdbd_delete_posted_event on the head of a queue. */
  function PopAccept(s: State): (t: State)
    requires Shape(s) && s.acceptQueue != []
    ensures Shape(t)
  {
    var r := s.acceptQueue[0];
    SetEvent(s, r, s.events[r].(posted := false)).(acceptQueue := s.acceptQueue[1..])
  }

  function PopEvent(s: State): (t: State)
    requires Shape(s) && s.eventQueue != []
    ensures Shape(t)
  {
    var r := s.eventQueue[0];
    SetEvent(s, r, s.events[r].(posted := false)).(eventQueue := s.eventQueue[1..])
  }

  /** xdbd_event_process_posted on the accept queue; `accepts` is what happens in
      each call.  A handler leaves both queues alone (`EventRun`). */
  function DrainAccept(s: State, accepts: seq<Accepted>): (t: State)
    requires Shape(s)
    ensures Shape(t)
    decreases |accepts|
  {
    if s.acceptQueue == [] || accepts == [] then s else
    var t := RunAccept(s, s.acceptQueue[0], accepts[0]);
    if t.acceptQueue == [] then t else DrainAccept(PopAccept(t), accepts[1..])
  }

  function DrainEvents(s: State, scripts: seq<seq<Effect>>): (t: State)
    requires Shape(s)
    ensures Shape(t)
    decreases |scripts|
  {
    if s.eventQueue == [] || scripts == [] then s else
    var t := RunEvent(s, s.eventQueue[0], scripts[0]);
    if t.eventQueue == [] then t else DrainEvents(PopEvent(t), scripts[1..])
  }

  /** Everything outside the daemon that decides what one tick does. */
  datatype Input = Input(
    select: Select, bad: set<int>, accepts: seq<Accepted>, scripts: seq<seq<Effect>>)

  /** xdbd_process_events_and_timers */
  function Tick(s: State, i: Input): (t: State)
    requires Shape(s)
    ensures Shape(t)
  {
    DrainEvents(DrainAccept(Poll(s, i.select, i.bad), i.accepts), i.scripts)
  }

  function Ticks(s: State, inputs: seq<Input>): (t: State)
    requires Shape(s)
    ensures Shape(t)
    decreases |inputs|
  {
    if inputs == [] then s else Ticks(Tick(s, inputs[0]), inputs[1..])
  }

  // ------------------------------------------------------------------ start

  /** The table built by xdbd_event_init_connections.  The event records come from
      memory that is not cleared, so all but `closed` is arbitrary. */
  function Initial(raw: map<Ref, Event>, n: nat): (s: State)
    requires forall r: Ref :: r in raw <==> r.slot < n
    ensures Shape(s)
  {
    State(seq(n, _ => -1), map r | r in raw :: raw[r].(closed := true), seq(n, k => k), [], -1, {}, {}, [], [], false, [])
  }

  /** Takes a slot for a listening socket and registers its accept event. */
  function Listen(s: State, fd: int): (t: State)
    requires Shape(s) && s.free != []
    ensures Shape(t)
  {
    var k := s.free[0];
    var t := Get(s, fd);
    Add(SetEvent(t, Ref(k, false), t.events[Ref(k, false)].(accepted := true, handler := Accept)), Ref(k, false))
  }
}
