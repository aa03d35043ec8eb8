/** Whole runs of the event loop: poll, accept queue, event queue, again and again,
    with handlers that may close their own connection and slots that are reused. */
module EventRun {
  import opened EventState
  import opened EventInvariant
  import opened EventPoll

  /** Each event of the accept queue is queued once, flagged, and the accept event
      of a listening connection. */
  ghost predicate AcceptSide(s: State)
    requires Shape(s)
  {
    && Distinct(s.acceptQueue)
    && (forall r :: r in s.acceptQueue ==>
          InUse(s, r.slot) && !r.write && s.events[r].posted && s.events[r].handler == Accept)
  }

  /** Each event of the other queue is queued once and flagged; a read event belongs
      to a connection in use and served by a packet handler, so the only events of
      free slots that can be queued are write events, whose handler is empty. */
  ghost predicate EventSide(s: State)
    requires Shape(s)
  {
    && Distinct(s.eventQueue)
    && (forall r :: r in s.eventQueue ==>
          s.events[r].posted && if r.write then s.events[r].handler == Empty else PacketConnection(s, r.slot))
  }

  /** A flagged event of a connection in use is queued. */
  ghost predicate FlagSide(s: State)
    requires Shape(s)
  {
    forall r :: r in s.events && InUse(s, r.slot) && s.events[r].posted ==> r in s.acceptQueue || r in s.eventQueue
  }

  ghost predicate Queues(s: State)
    requires Shape(s)
  {
    AcceptSide(s) && EventSide(s) && FlagSide(s)
  }

  ghost predicate QueuedInUse(s: State) {
    forall r :: r in s.acceptQueue || r in s.eventQueue ==> InUse(s, r.slot)
  }

  /** The daemon between two ticks. */
  ghost predicate Idle(s: State) {
    Connections(s) && Queues(s) && s.acceptQueue == [] && s.eventQueue == []
  }

  // ------------------------------------------------------- accept handler

  ghost predicate AcceptOk(s: State, a: Accepted) {
    !a.NoSocket? ==> a.fd >= 0 && a.fd !in s.fds
  }

  lemma Relabel(s: State, t: State)
    requires Connections(s) && Shape(t)
    requires t == s.(acceptQueue := t.acceptQueue, eventQueue := t.eventQueue, ran := t.ran)
    ensures Connections(t)
  {
    forall k: nat | InUse(t, k) ensures Role(t, k) { SameRole(s, t, k); }
    RecordBits(s, t, s.masterRead, false);
    RecordBits(s, t, s.masterWrite, true);
    RecordCache(s, t);
  }

  /** Setting up an accepted connection registers its read event. */
  lemma InitKeeps(s: State, k: nat)
    requires Connections(s) && InUse(s, k)
    requires s.events[Ref(k, false)] == Wiped(Ref(k, false)) && s.events[Ref(k, true)] == Wiped(Ref(k, true))
    ensures var t := InitConnection(s, k);
      && Connections(t) && Elsewhere(s, t, k) && t.fds == s.fds && t.free == s.free
      && !t.events[Ref(k, false)].posted && !t.events[Ref(k, true)].posted
      && Registered(t, Ref(k, false)) && PacketConnection(t, k)
  {
    hide Bits, Cache, Table, Masters, Elsewhere;
    var w := s.events[Ref(k, true)].(ready := true, handler := Empty);
    var t := SetEvent(s, Ref(k, true), w);
    assert !Registered(t, Ref(k, true)) && !Registered(t, Ref(k, false));
    RecordKeeps(s, Ref(k, true), w);
    var r := t.events[Ref(k, false)].(handler := WaitPacket);
    var u := SetEvent(t, Ref(k, false), r);
    RecordKeeps(t, Ref(k, false), r);
    ElsewhereTrans(s, t, u, k);
    HandleReadKeeps(u, k, false);
    ElsewhereTrans(s, u, HandleRead(u, k, false), k);
    AddRegisters(u, Ref(k, false));
  }

  /** The slot an accept takes has no event in the registry or in a queue, so wiping
      its two event records destroys nothing that is linked anywhere. */
  lemma WipeIsSafe(s: State)
    requires Connections(s) && QueuedInUse(s) && s.free != []
    ensures forall w ::
      var r := Ref(s.free[0], w);
      !Registered(s, r) && r !in s.index && r !in s.acceptQueue && r !in s.eventQueue
  {
  }

  /** Queues survive a change confined to a slot they do not mention. */
  lemma QueuesElsewhere(s: State, t: State, k: nat)
    requires Shape(s) && Shape(t) && Queues(s) && QueuedInUse(s) && Elsewhere(s, t, k)
    requires !InUse(s, k) && k < |s.fds|
    requires !t.events[Ref(k, false)].posted && !t.events[Ref(k, true)].posted
    ensures Queues(t) && QueuedInUse(t)
  {
  }

  lemma GetElsewhere(s: State, fd: int)
    requires Connections(s) && s.free != [] && fd >= 0
    ensures Elsewhere(s, Get(s, fd), s.free[0])
  {
    hide Registered, Registry, Bits, Cache, Table, Role, Roles;
    GetRegistry(s, fd);
  }

  lemma AcceptedKeeps(s: State, a: Accepted)
    requires Connections(s) && Queues(s) && QueuedInUse(s) && AcceptOk(s, a)
    requires !a.NoSocket? && s.free != []
    ensures var t := Get(s, a.fd); Connections(t) && Queues(t) && QueuedInUse(t) && Elsewhere(s, t, s.free[0])
    ensures var t := InitConnection(Get(s, a.fd), s.free[0]);
      Connections(t) && Queues(t) && QueuedInUse(t) && Elsewhere(s, t, s.free[0])
  {
    var k := s.free[0];
    var t := Get(s, a.fd);
    GetKeeps(s, a.fd);
    GetElsewhere(s, a.fd);
    QueuesElsewhere(s, t, k);
    InitKeeps(t, k);
    ElsewhereTrans(s, t, InitConnection(t, k), k);
    QueuesElsewhere(s, InitConnection(t, k), k);
  }

  function NotReady(s: State, r: Ref): (t: State)
    requires Shape(s) && r in s.events
    ensures Shape(t)
  {
    SetEvent(s, r, s.events[r].(ready := false)).(ran := s.ran + [r])
  }

  lemma NotReadyQueues(s: State)
    requires Shape(s) && Queues(s) && QueuedInUse(s) && s.acceptQueue != []
    ensures var t := NotReady(s, s.acceptQueue[0]); Queues(t) && QueuedInUse(t)
  {
  }

  lemma HeadRole(s: State)
    requires Connections(s) && Queues(s) && s.acceptQueue != []
    ensures var r := s.acceptQueue[0]; r in s.events && Role(s, r.slot)
  {
  }

  lemma NotReadyKeeps(s: State)
    requires Shape(s) && Connections(s) && Queues(s) && QueuedInUse(s) && s.acceptQueue != []
    ensures var t := NotReady(s, s.acceptQueue[0]); Connections(t) && Queues(t) && QueuedInUse(t)
  {
    hide Connections, Queues, QueuedInUse, Role;
    var r := s.acceptQueue[0];
    var e := s.events[r].(ready := false);
    HeadRole(s);
    SameButPosted(s, r, e);
    RecordKeeps(s, r, e);
    Relabel(SetEvent(s, r, e), NotReady(s, r));
    NotReadyQueues(s);
  }

  lemma NotReadyConnections(s: State, r: Ref)
    requires Connections(s) && r in s.events && InUse(s, r.slot)
    ensures Connections(NotReady(s, r))
  {
    hide Bits, Cache, Table, Registry, Registered, Elsewhere;
    var e := s.events[r].(ready := false);
    assert Role(s, r.slot);
    SameButPosted(s, r, e);
    RecordKeeps(s, r, e);
    Relabel(SetEvent(s, r, e), NotReady(s, r));
  }

  lemma HeadInUse(s: State)
    requires Shape(s) && QueuedInUse(s) && s.acceptQueue != []
    ensures InUse(s, s.acceptQueue[0].slot) && s.acceptQueue[0] in s.events
  {
  }

  lemma RunAcceptUnfold(s: State, r: Ref, a: Accepted)
    requires Shape(s) && r in s.events
    ensures var n := NotReady(s, r);
      && n.fds == s.fds && n.acceptQueue == s.acceptQueue && n.eventQueue == s.eventQueue && n.ran == s.ran + [r] && n.repaired == s.repaired
      && RunAccept(s, r, a) ==
         if a.NoSocket? || n.free == [] then n
         else if a.NoPools? then Get(n, a.fd) else InitConnection(Get(n, a.fd), n.free[0])
  {
  }

  lemma ElsewhereQueues(s: State, t: State, k: nat)
    requires Shape(s) && Shape(t) && Elsewhere(s, t, k)
    ensures t.acceptQueue == s.acceptQueue && t.eventQueue == s.eventQueue && t.ran == s.ran && t.repaired == s.repaired
  {
  }

  lemma RunAcceptKeeps(s: State, a: Accepted)
    requires Shape(s) && Connections(s) && Queues(s) && QueuedInUse(s) && AcceptOk(s, a) && s.acceptQueue != []
    ensures s.acceptQueue[0] in s.events
    ensures var t := RunAccept(s, s.acceptQueue[0], a);
      && Connections(t) && Queues(t) && QueuedInUse(t)
      && t.acceptQueue == s.acceptQueue && t.eventQueue == s.eventQueue
      && t.ran == s.ran + [s.acceptQueue[0]] && t.repaired == s.repaired
  {
    hide Connections, Queues, QueuedInUse, Role, RunAccept, NotReady, InitConnection, Get, Elsewhere, Registered;
    var r := s.acceptQueue[0];
    RunAcceptUnfold(s, r, a);
    NotReadyKeeps(s);
    var n := NotReady(s, r);
    if !a.NoSocket? && n.free != [] {
      AcceptedKeeps(n, a);
      ElsewhereQueues(n, RunAccept(s, r, a), n.free[0]);
    }
  }

  lemma PopAcceptKeeps(s: State)
    requires Connections(s) && Queues(s) && QueuedInUse(s) && s.acceptQueue != []
    ensures var t := PopAccept(s); Connections(t) && Queues(t) && QueuedInUse(t)
  {
    PopAcceptQueues(s);
    var r := s.acceptQueue[0];
    var e := s.events[r].(posted := false);
    assert r in s.acceptQueue;
    assert Role(s, r.slot);
    SameButPosted(s, r, e);
    hide Queues, Connections, Role;
    RecordKeeps(s, r, e);
    Relabel(SetEvent(s, r, e), PopAccept(s));
  }

  lemma SameButPosted(s: State, r: Ref, e: Event)
    requires Shape(s) && r in s.events && Role(s, r.slot)
    requires e == s.events[r].(posted := e.posted, ready := e.ready)
    ensures Role(SetEvent(s, r, e), r.slot)
  {
  }

  lemma PopAcceptQueues(s: State)
    requires Shape(s) && Queues(s) && QueuedInUse(s) && s.acceptQueue != []
    ensures var t := PopAccept(s); Queues(t) && QueuedInUse(t)
  {
    hide Distinct;
    Tail(s.acceptQueue);
    assert PopAccept(s).acceptQueue == s.acceptQueue[1..];
  }

  /** What accept() and the pools do while the accept queue is drained. */
  ghost predicate AcceptsOk(s: State, accepts: seq<Accepted>)
    requires Shape(s)
    decreases |accepts|
  {
    if s.acceptQueue == [] || accepts == [] then s.acceptQueue == [] && accepts == [] else
    AcceptOk(s, accepts[0]) &&
    var t := RunAccept(s, s.acceptQueue[0], accepts[0]);
    t.acceptQueue != [] && AcceptsOk(PopAccept(t), accepts[1..])
  }

  lemma DrainAcceptUnfold(s: State, accepts: seq<Accepted>)
    requires Shape(s) && AcceptsOk(s, accepts)
    ensures if accepts == [] then s.acceptQueue == [] && DrainAccept(s, accepts) == s else
      && s.acceptQueue != [] && s.acceptQueue[0] in s.events && AcceptOk(s, accepts[0])
      && var t := RunAccept(s, s.acceptQueue[0], accepts[0]);
         t.acceptQueue == s.acceptQueue ==>
         && DrainAccept(s, accepts) == DrainAccept(PopAccept(t), accepts[1..])
         && PopAccept(t).acceptQueue == s.acceptQueue[1..]
         && PopAccept(t).eventQueue == t.eventQueue && PopAccept(t).ran == t.ran && PopAccept(t).repaired == t.repaired
         && AcceptsOk(PopAccept(t), accepts[1..])
  {
  }

  lemma {:induction false} DrainAcceptKeeps(s: State, accepts: seq<Accepted>)
    requires Shape(s) && Connections(s) && Queues(s) && QueuedInUse(s) && AcceptsOk(s, accepts)
    ensures var t := DrainAccept(s, accepts);
      && Connections(t) && Queues(t) && QueuedInUse(t)
      && t.acceptQueue == [] && t.eventQueue == s.eventQueue
      && t.ran == s.ran + s.acceptQueue && t.repaired == s.repaired
    decreases |accepts|
  {
    hide *;
    DrainAcceptUnfold(s, accepts);
    if accepts != [] {
      var t := RunAccept(s, s.acceptQueue[0], accepts[0]);
      RunAcceptKeeps(s, accepts[0]);
      PopAcceptKeeps(t);
      DrainAcceptKeeps(PopAccept(t), accepts[1..]);
    }
  }

  // ------------------------------------------------------ packet handlers

  /** A handler changes only its own connection, so every other queued event keeps
      its place, its flag and its connection. */
  lemma PopEventQueues(s: State, t: State, k: nat)
    requires Shape(s) && Shape(t) && Queues(s) && Local(s, t, k) && s.eventQueue != []
    requires InUse(s, k) && s.eventQueue[0] == Ref(k, false) && s.acceptQueue == []
    requires t.acceptQueue == s.acceptQueue && t.eventQueue == s.eventQueue
    ensures Queues(PopEvent(t))
  {
    hide Local, EventSide, FlagSide, Elsewhere;
    PopEventSide(s, t, k);
    PopEventFlags(s, t, k);
  }

  lemma Tail<T(!new)>(xs: seq<T>)
    requires xs != [] && Distinct(xs)
    ensures Distinct(xs[1..])
    ensures forall x :: x in xs[1..] <==> x in xs && x != xs[0]
  {
  }

  lemma PopEventSide(s: State, t: State, k: nat)
    requires Shape(s) && Shape(t) && EventSide(s) && Local(s, t, k) && s.eventQueue != []
    requires s.eventQueue[0] == Ref(k, false) && t.eventQueue == s.eventQueue
    ensures EventSide(PopEvent(t))
  {
    hide Distinct, Registered;
    var u := PopEvent(t);
    Tail(s.eventQueue);
    forall r | r in u.eventQueue
      ensures u.events[r].posted && if r.write then u.events[r].handler == Empty else PacketConnection(u, r.slot)
    {
      assert r in s.eventQueue && r != Ref(k, false);
      assert r.slot == k ==> r == Ref(k, true);
    }
  }

  lemma PopEventFlags(s: State, t: State, k: nat)
    requires Shape(s) && Shape(t) && FlagSide(s) && EventSide(s) && Local(s, t, k) && s.eventQueue != []
    requires InUse(s, k) && s.eventQueue[0] == Ref(k, false) && s.acceptQueue == [] && t.eventQueue == s.eventQueue
    ensures FlagSide(PopEvent(t))
  {
  }

  lemma PopEmptyQueues(s: State)
    requires Shape(s) && Queues(s) && s.eventQueue != [] && s.acceptQueue == []
    ensures Queues(PopEvent(s))
  {
    hide Distinct;
    AcceptNone(s);
    Tail(s.eventQueue);
  }

  lemma AcceptNone(s: State)
    requires Shape(s) && s.eventQueue != [] && s.acceptQueue == []
    ensures AcceptSide(PopEvent(s))
  {
  }

  lemma PopEventKeeps(s: State)
    requires Connections(s) && s.eventQueue != []
    ensures Connections(PopEvent(s))
  {
    var r := s.eventQueue[0];
    var e := s.events[r].(posted := false);
    if InUse(s, r.slot) {
      assert Role(s, r.slot);
      SameButPosted(s, r, e);
    }
    RecordKeeps(s, r, e);
    Relabel(SetEvent(s, r, e), PopEvent(s));
  }

  /** `t` is `s` after the handler at the head of the event queue was called: if it is
      a read event its connection was in use, nothing outside that connection has
      changed, and the rest of the queue is sound once the head is taken off. */
  ghost predicate Handled(s: State, t: State)
    requires Shape(s) && Shape(t) && s.eventQueue != []
  {
    var r := s.eventQueue[0];
    && (r.write || PacketConnection(s, r.slot))
    && Connections(t) && Local(s.(ran := t.ran), t, r.slot)
    && t.eventQueue == s.eventQueue && t.acceptQueue == []
    && t.ran == s.ran + [r]
    && Queues(PopEvent(t))
  }

  lemma RunEventKeeps(s: State, es: seq<Effect>)
    requires Shape(s) && Connections(s) && Queues(s) && s.acceptQueue == [] && s.eventQueue != [] && OwnScript(es)
    ensures Handled(s, RunEvent(s, s.eventQueue[0], es))
  {
    hide Connections, Queues, Local, Elsewhere, Effects, OwnScript, Registered, Settled;
    HeadEvent(s);
    var r := s.eventQueue[0];
    var s0, t := s.(ran := s.ran + [r]), RunEvent(s, r, es);
    Relabel(s, s0);
    RelabelQueues(s, s0);
    if r.write {
      PopEmptyQueues(s0);
      LocalSelf(s0, r.slot);
    } else {
      EffectsKeep(s0, r.slot, es);
      LocalQueues(s0, t, r.slot);
      PopEventQueues(s0, t, r.slot);
    }
  }

  lemma HandledFacts(s: State, t: State)
    requires Shape(s) && Shape(t) && s.eventQueue != [] && Handled(s, t)
    ensures Connections(t) && t.eventQueue == s.eventQueue && t.acceptQueue == [] && t.ran == s.ran + [s.eventQueue[0]] && t.repaired == s.repaired
    ensures Queues(PopEvent(t))
  {
  }

  lemma HeadEvent(s: State)
    requires Shape(s) && Queues(s) && s.eventQueue != []
    ensures var r := s.eventQueue[0];
      && r in s.events
      && (if r.write then s.events[r].handler == Empty else s.events[r].handler != Empty && PacketConnection(s, r.slot))
  {
  }

  lemma RelabelQueues(s: State, t: State)
    requires Shape(s) && Shape(t) && Queues(s) && t == s.(ran := t.ran)
    ensures Queues(t)
    ensures forall k: nat :: PacketConnection(s, k) ==> PacketConnection(t, k)
  {
  }

  lemma LocalQueues(s: State, t: State, k: nat)
    requires Shape(s) && Shape(t) && Local(s, t, k)
    ensures t.acceptQueue == s.acceptQueue && t.eventQueue == s.eventQueue && t.ran == s.ran && t.repaired == s.repaired
  {
  }

  lemma LocalSelf(s: State, k: nat)
    requires Shape(s)
    ensures Local(s, s, k)
  {
  }

  ghost predicate ScriptsOk(s: State, scripts: seq<seq<Effect>>) {
    |scripts| == |s.eventQueue| && forall i :: 0 <= i < |scripts| ==> OwnScript(scripts[i])
  }

  lemma DrainEventsUnfold(s: State, scripts: seq<seq<Effect>>)
    requires Shape(s) && ScriptsOk(s, scripts)
    ensures if scripts == [] then s.eventQueue == [] && DrainEvents(s, scripts) == s else
      && s.eventQueue != [] && s.eventQueue[0] in s.events && OwnScript(scripts[0])
      && var t := RunEvent(s, s.eventQueue[0], scripts[0]);
         t.eventQueue == s.eventQueue ==>
         && DrainEvents(s, scripts) == DrainEvents(PopEvent(t), scripts[1..])
         && PopEvent(t).eventQueue == s.eventQueue[1..]
         && PopEvent(t).acceptQueue == t.acceptQueue && PopEvent(t).ran == t.ran && PopEvent(t).repaired == t.repaired
         && ScriptsOk(PopEvent(t), scripts[1..])
  {
  }

  lemma {:induction false} DrainEventsKeeps(s: State, scripts: seq<seq<Effect>>)
    requires Shape(s) && Connections(s) && Queues(s) && s.acceptQueue == [] && ScriptsOk(s, scripts)
    ensures var t := DrainEvents(s, scripts);
      && Connections(t) && Queues(t) && t.acceptQueue == [] && t.eventQueue == []
      && t.ran == s.ran + s.eventQueue && t.repaired == s.repaired
    decreases |scripts|
  {
    hide *;
    DrainEventsUnfold(s, scripts);
    if scripts != [] {
      var t := RunEvent(s, s.eventQueue[0], scripts[0]);
      RunEventKeeps(s, scripts[0]);
      HandledFacts(s, t);
      PopEventKeeps(t);
      DrainEventsKeeps(PopEvent(t), scripts[1..]);
    }
  }

  // ------------------------------------------------------------------ runs

  /** What the outside world may do in one tick. */
  ghost predicate InputOk(s: State, i: Input)
    requires Shape(s)
  {
    && SelectOk(FillMax(s), i.select)
    && var polled := Poll(s, i.select, i.bad);
       AcceptsOk(polled, i.accepts) && ScriptsOk(DrainAccept(polled, i.accepts), i.scripts)
  }

  lemma IdleUnposted(s: State)
    requires Idle(s)
    ensures forall p :: 0 <= p < |s.index| ==> !s.events[s.index[p]].posted
    ensures forall r :: r in s.events && InUse(s, r.slot) ==> !s.events[r].posted
  {
  }

  /** What a registered event's place in a queue will rely on. */
  ghost predicate Queueable(s: State, r: Ref)
    requires Shape(s)
  {
    && r in s.events && InUse(s, r.slot)
    && if s.events[r].accepted then !r.write && s.events[r].handler == Accept
       else if r.write then s.events[r].handler == Empty else PacketConnection(s, r.slot)
  }

  lemma RegisteredQueueable(s: State, r: Ref)
    requires Shape(s) && Registry(s) && Roles(s) && Registered(s, r)
    ensures Queueable(s, r)
  {
  }

  /** The queues after a poll that did not fail. */
  lemma PostedQueues(s: State, f: State, t: State, h: seq<Ref>)
    requires Shape(s) && f == s.(maxFd := f.maxFd) && Shape(t)
    requires forall r :: r in s.events && InUse(s, r.slot) ==> !s.events[r].posted
    requires forall r :: r in h ==> Queueable(s, r)
    requires Distinct(h) && s.acceptQueue == [] && s.eventQueue == [] && Posted(f, t, h)
    ensures Queues(t) && QueuedInUse(t) && t.ran == s.ran && t.repaired == s.repaired
    ensures t.acceptQueue == Pick(s, h, true) && t.eventQueue == Pick(s, h, false)
  {
    hide Distinct, Pick;
    PickSelects(s, h, true);
    PickSelects(s, h, false);
    PickDistinct(s, h, true);
    PickDistinct(s, h, false);
    SamePick(s, f, h, true);
    SamePick(s, f, h, false);
    assert t.acceptQueue == Pick(s, h, true) && t.eventQueue == Pick(s, h, false);
  }

  /** A failed select() posts nothing. */
  lemma FailedQueues(s: State, i: Input)
    requires Idle(s) && i.select.Failed?
    ensures var t := Poll(s, i.select, i.bad);
      Queues(t) && QueuedInUse(t) && t.ran == s.ran && t.repaired == (s.repaired || i.select == Failed(true)) && t.acceptQueue == [] && t.eventQueue == []
  {
    hide Registered, Bits, Cache, Table, Role, Registry;
    var t := Poll(s, i.select, i.bad);
    assert t.events == s.events && t.fds == s.fds;
  }

  lemma PollQueues(s: State, i: Input)
    requires Idle(s) && SelectOk(FillMax(s), i.select)
    ensures Poll(s, i.select, i.bad).repaired == (s.repaired || i.select == Failed(true))
    ensures var t := Poll(s, i.select, i.bad); var h := ReadyEvents(s, i.select);
      && Connections(t) && Queues(t) && QueuedInUse(t) && t.ran == s.ran
      && t.acceptQueue == Pick(s, h, true) && t.eventQueue == Pick(s, h, false)
  {
    hide Queues, QueuedInUse, Queueable, Masters, Cache, Table, Posted, Found, Hits, SelectOk, Poll;
    var h := ReadyEvents(s, i.select);
    IdleUnposted(s);
    PollKeeps(s, i.select, i.bad);
    if i.select.Failed? {
      FailedQueues(s, i);
    } else {
      PollPosts(s, i.select, i.bad);
      ReadyIsFound(s, i.select);
      forall r | r in h ensures Queueable(s, r) {
        RegisteredQueueable(s, r);
      }
      PostedQueues(s, FillMax(s), Poll(s, i.select, i.bad), h);
    }
  }

  lemma {:induction false} SamePick(s: State, t: State, h: seq<Ref>, accepted: bool)
    requires s.events == t.events
    ensures Pick(s, h, accepted) == Pick(t, h, accepted)
  {
    if h != [] { SamePick(s, t, h[..|h| - 1], accepted); }
  }

  /** One tick: from an idle daemon to an idle daemon.  Exactly the ready events have
      their handler called, each once: all accept events first, then all others, each
      group in registry order. */
  lemma TickKeeps(s: State, i: Input)
    requires Idle(s) && InputOk(s, i)
    ensures Idle(Tick(s, i))
    ensures Tick(s, i).repaired == (s.repaired || i.select == Failed(true))
    ensures var h := ReadyEvents(s, i.select);
      Tick(s, i).ran == s.ran + Pick(s, h, true) + Pick(s, h, false)
  {
    PollQueues(s, i);
    DrainAcceptKeeps(Poll(s, i.select, i.bad), i.accepts);
    DrainEventsKeeps(DrainAccept(Poll(s, i.select, i.bad), i.accepts), i.scripts);
  }

  /** The three phases of a tick, and what each starts from. */
  lemma TickPhases(s: State, i: Input)
    requires Idle(s) && InputOk(s, i)
    ensures Shape(s) && Registry(s)
    ensures var p := Poll(s, i.select, i.bad);
      && Connections(p) && Queues(p) && QueuedInUse(p) && AcceptsOk(p, i.accepts)
      && var d := DrainAccept(p, i.accepts);
         && Connections(d) && Queues(d) && d.acceptQueue == [] && ScriptsOk(d, i.scripts)
         && Tick(s, i) == DrainEvents(d, i.scripts)
  {
    hide Queues, QueuedInUse, AcceptsOk, ScriptsOk, Poll, DrainAccept, DrainEvents, SelectOk, Masters, Cache, Table, Roles;
    PollQueues(s, i);
    DrainAcceptKeeps(Poll(s, i.select, i.bad), i.accepts);
  }

  ghost predicate InputsOk(s: State, inputs: seq<Input>)
    requires Shape(s)
    decreases |inputs|
  {
    inputs != [] ==> InputOk(s, inputs[0]) && InputsOk(Tick(s, inputs[0]), inputs[1..])
  }

  /** Safety of every run: after any number of ticks the daemon is idle again. */
  lemma {:induction false} TicksKeep(s: State, inputs: seq<Input>)
    requires Idle(s) && InputsOk(s, inputs)
    ensures Idle(Ticks(s, inputs))
    decreases |inputs|
  {
    if inputs != [] {
      TickKeeps(s, inputs[0]);
      TicksKeep(Tick(s, inputs[0]), inputs[1..]);
    }
  }
}
