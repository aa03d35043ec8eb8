/** The event loop and its packet connections together, over whole runs.  Each slot served by
    a packet handler has a peer, the connection as a value; a tick lets the loop run its
    handlers, each with the script of the step its peer makes. */
module Daemon {
  import opened EventState
  import opened EventInvariant
  import opened EventPoll
  import opened EventRun
  import opened EventTheorems
  import opened EventSafety
  import R = AdbReader
  import P = AdbPeer
  import K = Packet

  type Peers = map<nat, P.Peer>

  /** The slots with a peer are those served by a packet handler; the handler the loop will call
      for one is the one its peer stands before; and unless the peer is blocked its read event is
      registered, so that select() watches its descriptor. */
  ghost predicate Agrees(s: State, peers: Peers)
    requires Shape(s)
  {
    && (forall k: nat :: k in peers <==> PacketConnection(s, k))
    && (forall k: nat :: k in peers ==>
          && P.Live(peers[k].conn) && s.events[Ref(k, false)].handler == P.HandlerOf(peers[k].conn)
          && (peers[k].conn.Blocked? || Registered(s, Ref(k, false))))
  }

  /** A connection's state is that of a run of its own, from its acceptance. */
  ghost predicate IsRun(p: P.Peer) {
    exists incoming, envs :: P.EnvsOk(envs) && p == P.Turns(P.Accepted(incoming), envs)
  }

  ghost predicate AllRuns(peers: Peers) {
    forall k :: k in peers ==> IsRun(peers[k])
  }

  // -------------------------------------------------------------- accepting

  /** An accepted connection gets a peer that waits for `incoming`. */
  function Admitted(s: State, peers: Peers, a: Accepted, incoming: seq<R.Recv>): Peers {
    if a.Opened? && s.free != [] then peers[s.free[0] := P.Accepted(incoming)] else peers
  }

  /** What is accepted while the accept queue is drained, and what each connection receives. */
  function AcceptPeers(s: State, peers: Peers, accepts: seq<(Accepted, seq<R.Recv>)>): Peers
    requires Shape(s)
    decreases |accepts|
  {
    if s.acceptQueue == [] || accepts == [] then peers else
    var t := RunAccept(s, s.acceptQueue[0], accepts[0].0);
    var ps := Admitted(s, peers, accepts[0].0, accepts[0].1);
    if t.acceptQueue == [] then ps else AcceptPeers(PopAccept(t), ps, accepts[1..])
  }

  function Firsts<A, B>(xs: seq<(A, B)>): (r: seq<A>)
    ensures |r| == |xs|
  {
    if xs == [] then [] else [xs[0].0] + Firsts(xs[1..])
  }

  function Seconds<A, B>(xs: seq<(A, B)>): (r: seq<B>)
    ensures |r| == |xs|
  {
    if xs == [] then [] else [xs[0].1] + Seconds(xs[1..])
  }

  // ---------------------------------------------------------------- serving

  ghost predicate EnvsOk(calls: seq<(P.Env, seq<Effect>)>) {
    forall i :: 0 <= i < |calls| ==> K.TextsOk(calls[i].0.texts)
  }

  /** The peers after the handler of a queued event was called. */
  function Served(r: Ref, peers: Peers, env: P.Env): Peers
    requires K.TextsOk(env.texts)
  {
    if r.write || r.slot !in peers then peers else
    var q := P.Dispatched(peers[r.slot], env);
    if q.conn.Closed? then map k | k in peers && k != r.slot :: peers[k] else peers[r.slot := q]
  }

  function ServePeers(s: State, peers: Peers, calls: seq<(P.Env, seq<Effect>)>): Peers
    requires Shape(s) && EnvsOk(calls)
    decreases |calls|
  {
    if s.eventQueue == [] || calls == [] then peers else
    var t := RunEvent(s, s.eventQueue[0], calls[0].1);
    var ps := Served(s.eventQueue[0], peers, calls[0].0);
    if t.eventQueue == [] then ps else ServePeers(PopEvent(t), ps, calls[1..])
  }

  /** A queued read event's script is that of the step its peer makes, which stays defined. */
  ghost predicate CallOk(r: Ref, peers: Peers, call: (P.Env, seq<Effect>)) {
    && K.TextsOk(call.0.texts) && OwnScript(call.1)
    && (!r.write && r.slot in peers ==>
          var p := peers[r.slot].(ready := true); var q := P.Dispatched(p, call.0);
          !q.conn.Wild? && P.ScriptFor(p, q, call.1))
  }

  ghost predicate CallsOk(s: State, peers: Peers, calls: seq<(P.Env, seq<Effect>)>)
    requires Shape(s) && EnvsOk(calls)
    decreases |calls|
  {
    s.eventQueue != [] && calls != [] ==>
      && CallOk(s.eventQueue[0], peers, calls[0])
      && var t := RunEvent(s, s.eventQueue[0], calls[0].1);
         t.eventQueue != [] ==> CallsOk(PopEvent(t), Served(s.eventQueue[0], peers, calls[0].0), calls[1..])
  }

  // ------------------------------------------------------------------- ticks

  /** Everything outside the daemon in one tick. */
  datatype Drive = Drive(
    select: Select, bad: set<int>, accepts: seq<(Accepted, seq<R.Recv>)>, calls: seq<(P.Env, seq<Effect>)>)

  function InputOf(d: Drive): Input {
    Input(d.select, d.bad, Firsts(d.accepts), Seconds(d.calls))
  }

  ghost predicate DriveOk(s: State, peers: Peers, d: Drive)
    requires Shape(s)
  {
    && InputOk(s, InputOf(d)) && EnvsOk(d.calls)
    && var p := Poll(s, d.select, d.bad);
       CallsOk(DrainAccept(p, Firsts(d.accepts)), AcceptPeers(p, peers, d.accepts), d.calls)
  }

  function TickPeers(s: State, peers: Peers, d: Drive): Peers
    requires Shape(s) && EnvsOk(d.calls)
  {
    var p := Poll(s, d.select, d.bad);
    ServePeers(DrainAccept(p, Firsts(d.accepts)), AcceptPeers(p, peers, d.accepts), d.calls)
  }

  ghost predicate DrivesOk(s: State, peers: Peers, drives: seq<Drive>)
    requires Shape(s)
    decreases |drives|
  {
    drives != [] ==>
      DriveOk(s, peers, drives[0]) && DrivesOk(Tick(s, InputOf(drives[0])), TickPeers(s, peers, drives[0]), drives[1..])
  }

  /** The loop and its peers after a run. */
  function Driven(s: State, peers: Peers, drives: seq<Drive>): (State, Peers)
    requires Shape(s) && DrivesOk(s, peers, drives)
    decreases |drives|
  {
    if drives == [] then (s, peers) else
    Driven(Tick(s, InputOf(drives[0])), TickPeers(s, peers, drives[0]), drives[1..])
  }

  // ------------------------------------------------------------- agreement

  /** Changes that leave descriptors, registry and read handlers alone. */
  lemma SameAgrees(s: State, t: State, peers: Peers)
    requires Shape(s) && Shape(t) && Agrees(s, peers) && t.fds == s.fds && t.index == s.index
    requires forall k: nat :: k < |s.fds| ==> var e, o := t.events[Ref(k, false)], s.events[Ref(k, false)];
      e.handler == o.handler && e.index == o.index
    ensures Agrees(t, peers)
  {
  }

  /** `t` has the events of `s`, with their handlers and places in the registry. */
  ghost predicate SameHandlers(s: State, t: State) {
    && t.events.Keys == s.events.Keys && t.index == s.index
    && forall r :: r in s.events ==> t.events[r].handler == s.events[r].handler && t.events[r].index == s.events[r].index
  }

  lemma PostSame(s: State, r: Ref)
    requires Shape(s) && r in s.events
    ensures SameHandlers(s, Post(s, r))
  {
  }

  lemma SameTrans(s: State, t: State, u: State)
    requires SameHandlers(s, t) && SameHandlers(t, u)
    ensures SameHandlers(s, u)
  {
  }

  lemma {:induction false} ScanSame(s: State, workRead: set<int>, workWrite: set<int>, i: nat)
    requires Shape(s) && i <= |s.index|
    ensures SameHandlers(s, Scan(s, workRead, workWrite, i).0)
  {
    hide SameHandlers, Scan, Shape;
    if i == 0 {
      NoScan(s, workRead, workWrite);
    } else {
      var t := Scan(s, workRead, workWrite, i - 1).0;
      ScanSame(s, workRead, workWrite, i - 1);
      ScanOne(s, workRead, workWrite, i);
      PostSame(t, s.index[i - 1]);
      SameTrans(s, t, Post(t, s.index[i - 1]));
    }
  }

  lemma NoScan(s: State, workRead: set<int>, workWrite: set<int>)
    requires Shape(s)
    ensures SameHandlers(s, Scan(s, workRead, workWrite, 0).0)
  {
  }

  lemma PollSame(s: State, sel: Select, bad: set<int>)
    requires Shape(s)
    ensures SameHandlers(s, Poll(s, sel, bad)) && Poll(s, sel, bad).fds == s.fds
  {
    hide Scan, MaxFd;
    var f := FillMax(s);
    if sel.Reported? { ScanSame(f, sel.workRead, sel.workWrite, |f.index|); }
  }

  lemma PollAgrees(s: State, peers: Peers, sel: Select, bad: set<int>)
    requires Shape(s) && Agrees(s, peers)
    ensures Agrees(Poll(s, sel, bad), peers)
  {
    hide Poll, Agrees;
    PollSame(s, sel, bad);
    SameAgrees(s, Poll(s, sel, bad), peers);
  }

  /** What happens in slot `k` only, and leaves it served by the handler of `p`. */
  lemma SlotAgrees(s: State, t: State, k: nat, peers: Peers, p: P.Peer)
    requires Shape(s) && Shape(t) && Agrees(s, peers) && Elsewhere(s, t, k) && k < |s.fds|
    requires PacketConnection(t, k) && P.Live(p.conn) && t.events[Ref(k, false)].handler == P.HandlerOf(p.conn)
    requires p.conn.Blocked? || Registered(t, Ref(k, false))
    ensures Agrees(t, peers[k := p])
  {
    hide Elsewhere, Shape, Registered;
    OtherSlots(s, t, k);
    assert forall j: nat :: j != k ==> (PacketConnection(t, j) <==> PacketConnection(s, j));
  }

  lemma OtherSlots(s: State, t: State, k: nat)
    requires Shape(s) && Shape(t) && Elsewhere(s, t, k)
    ensures |t.fds| == |s.fds|
    ensures forall j: nat :: j != k && j < |s.fds| ==>
      && t.fds[j] == s.fds[j] && Ref(j, false) in s.events && Ref(j, false) in t.events
      && t.events[Ref(j, false)].handler == s.events[Ref(j, false)].handler
      && (Registered(t, Ref(j, false)) <==> Registered(s, Ref(j, false)))
  {
    hide Registered;
    forall j: nat | j != k && j < |s.fds| ensures t.events[Ref(j, false)].handler == s.events[Ref(j, false)].handler {
      assert t.events[Ref(j, false)].(index := s.events[Ref(j, false)].index) == s.events[Ref(j, false)];
    }
  }

  /** ... or leaves it not served by one. */
  lemma SlotLeft(s: State, t: State, k: nat, peers: Peers)
    requires Shape(s) && Shape(t) && Agrees(s, peers) && Elsewhere(s, t, k) && !PacketConnection(t, k)
    ensures Agrees(t, map j | j in peers && j != k :: peers[j])
    ensures k !in peers ==> Agrees(t, peers)
  {
    hide Elsewhere, Shape, Registered;
    OtherSlots(s, t, k);
    assert forall j: nat :: j != k ==> (PacketConnection(t, j) <==> PacketConnection(s, j));
  }

  lemma AcceptAgrees(s: State, peers: Peers, a: Accepted, incoming: seq<R.Recv>)
    requires Shape(s) && Connections(s) && Queues(s) && QueuedInUse(s) && AcceptOk(s, a) && s.acceptQueue != []
    requires Agrees(s, peers)
    ensures s.acceptQueue[0] in s.events
    ensures Agrees(RunAccept(s, s.acceptQueue[0], a), Admitted(s, peers, a, incoming))
  {
    hide Queues, QueuedInUse, Connections, RunAccept, NotReady, Get, InitConnection, Agrees, Elsewhere, Registered;
    var r := s.acceptQueue[0];
    HeadInUse(s);
    RunAcceptUnfold(s, r, a);
    NotReadyKeeps(s);
    var n := NotReady(s, r);
    NotReadyAgrees(s, peers);
    if !a.NoSocket? && n.free != [] {
      var k := n.free[0];
      AcceptedKeeps(n, a);
      HeadFree(n, peers);
      if a.Opened? {
        AcceptServes(s, r, a);
        OpenedAgrees(n, peers, a.fd, incoming);
      } else {
        GotUnserved(n, a.fd);
        SlotLeft(n, Get(n, a.fd), k, peers);
      }
    }
  }

  lemma NotReadyAgrees(s: State, peers: Peers)
    requires Shape(s) && s.acceptQueue != [] && Agrees(s, peers)
    ensures var n := NotReady(s, s.acceptQueue[0]); n.free == s.free && Agrees(n, peers)
  {
    SameAgrees(s, NotReady(s, s.acceptQueue[0]), peers);
  }

  lemma HeadFree(s: State, peers: Peers)
    requires Connections(s) && s.free != [] && Agrees(s, peers)
    ensures s.free[0] < |s.fds| && s.free[0] !in peers
  {
    hide Registry, Masters, Cache, Roles;
    assert s.free[0] in s.free;
  }

  lemma GotUnserved(s: State, fd: int)
    requires Shape(s) && s.free != []
    ensures !PacketConnection(Get(s, fd), s.free[0])
  {
  }

  lemma OpenedAgrees(s: State, peers: Peers, fd: int, incoming: seq<R.Recv>)
    requires Connections(s) && s.free != [] && fd >= 0 && fd !in s.fds && Agrees(s, peers)
    requires Elsewhere(s, InitConnection(Get(s, fd), s.free[0]), s.free[0])
    ensures Agrees(InitConnection(Get(s, fd), s.free[0]), peers[s.free[0] := P.Accepted(incoming)])
  {
    hide Table, Registry, Masters, Cache, Roles, InitConnection, Agrees, Elsewhere, Registered;
    OpenedServes(s, fd);
    HeadFree(s, peers);
    SlotAgrees(s, InitConnection(Get(s, fd), s.free[0]), s.free[0], peers, P.Accepted(incoming));
  }

  lemma PopAgrees(s: State, peers: Peers)
    requires Shape(s) && Agrees(s, peers)
    ensures s.acceptQueue != [] ==> Agrees(PopAccept(s), peers)
    ensures s.eventQueue != [] ==> Agrees(PopEvent(s), peers)
  {
    hide Agrees;
    if s.acceptQueue != [] { SameAgrees(s, PopAccept(s), peers); }
    if s.eventQueue != [] { SameAgrees(s, PopEvent(s), peers); }
  }

  lemma {:induction false} DrainAcceptAgrees(s: State, peers: Peers, accepts: seq<(Accepted, seq<R.Recv>)>)
    requires Shape(s) && Connections(s) && Queues(s) && QueuedInUse(s) && AcceptsOk(s, Firsts(accepts))
    requires Agrees(s, peers)
    ensures Agrees(DrainAccept(s, Firsts(accepts)), AcceptPeers(s, peers, accepts))
    decreases |accepts|
  {
    hide Connections, Queues, QueuedInUse, RunAccept, PopAccept, Agrees, Admitted, AcceptOk, AcceptsOk, DrainAccept;
    DrainAcceptUnfold(s, Firsts(accepts));
    if accepts != [] {
      assert Firsts(accepts)[0] == accepts[0].0 && Firsts(accepts)[1..] == Firsts(accepts[1..]);
      var t := RunAccept(s, s.acceptQueue[0], accepts[0].0);
      RunAcceptKeeps(s, accepts[0].0);
      PopAcceptKeeps(t);
      AcceptAgrees(s, peers, accepts[0].0, accepts[0].1);
      var ps := Admitted(s, peers, accepts[0].0, accepts[0].1);
      PopAgrees(t, ps);
      DrainAcceptAgrees(PopAccept(t), ps, accepts[1..]);
    }
  }

  /** A handler called with the script of its peer's step leaves the loop in agreement. */
  lemma EventAgrees(s: State, peers: Peers, call: (P.Env, seq<Effect>))
    requires Shape(s) && Connections(s) && Queues(s) && s.acceptQueue == [] && s.eventQueue != []
    requires Agrees(s, peers) && CallOk(s.eventQueue[0], peers, call)
    ensures s.eventQueue[0] in s.events
    ensures Agrees(RunEvent(s, s.eventQueue[0], call.1), Served(s.eventQueue[0], peers, call.0))
  {
    hide Connections, Queues, Agrees, Elsewhere, Local, Registered, Effects, Settled, OwnScript, CallOk, Served, P.Dispatched;
    var r, es := s.eventQueue[0], call.1;
    HeadEvent(s);
    CallParts(r, peers, call);
    var s0 := s.(ran := s.ran + [r]);
    Relabel(s, s0);
    SameAgrees(s, s0, peers);
    if r.write {
      ServedWrite(r, peers, call.0);
    } else {
      HasPeer(s, peers, r.slot);
      EffectsKeep(s0, r.slot, es);
      LoopFollowsHandler(s0, r.slot, es);
      if Watching(es) && Registered(s0, r) { EffectsWatch(s0, r.slot, es); }
      ReadAgrees(s0, Effects(s0, r.slot, es), peers, r, call);
    }
  }

  lemma CallParts(r: Ref, peers: Peers, call: (P.Env, seq<Effect>))
    requires CallOk(r, peers, call)
    ensures K.TextsOk(call.0.texts) && OwnScript(call.1)
  {
  }

  lemma ServedWrite(r: Ref, peers: Peers, env: P.Env)
    requires K.TextsOk(env.texts) && r.write
    ensures Served(r, peers, env) == peers
  {
  }

  lemma HasPeer(s: State, peers: Peers, k: nat)
    requires Shape(s) && Agrees(s, peers) && PacketConnection(s, k)
    ensures k in peers && P.Live(peers[k].conn) && s.events[Ref(k, false)].handler == P.HandlerOf(peers[k].conn)
    ensures peers[k].conn.Blocked? || Registered(s, Ref(k, false))
  {
  }

  lemma {:induction false} HandlerAfter(h: Handler, ready: bool, other: bool, es: seq<Effect>)
    ensures AfterScript(h, ready, es).0 == AfterScript(h, other, es).0
  {
    if es != [] { HandlerAfter(h, ready, other, es[..|es| - 1]); }
  }

  lemma ReadAgrees(s: State, t: State, peers: Peers, r: Ref, call: (P.Env, seq<Effect>))
    requires Shape(s) && Shape(t) && Agrees(s, peers) && !r.write && PacketConnection(s, r.slot) && CallOk(r, peers, call)
    requires Local(s, t, r.slot) && Settled(s, t, r.slot, call.1) && r.slot < |t.fds| && r in t.events
    requires t.events[r].handler == AfterScript(s.events[r].handler, s.events[r].ready, call.1).0
    requires Watching(call.1) && Registered(s, r) && PacketConnection(t, r.slot) ==> Registered(t, r)
    ensures Agrees(t, Served(r, peers, call.0))
  {
    hide Agrees, Elsewhere, Registered, OwnScript, AfterScript, K.TextsOk, P.Turn, Writeless;
    HasPeer(s, peers, r.slot);
    var k := r.slot;
    assert r == Ref(k, false);
    var p := peers[k].(ready := true);
    var q := P.Dispatched(p, call.0);
    P.WhatShuts(p, call.0);
    HandlerAfter(P.HandlerOf(p.conn), s.events[r].ready, true, call.1);
    if q.conn.Closed? {
      SlotLeft(s, t, k, peers);
    } else {
      SlotAgrees(s, t, k, peers, q);
    }
  }

  lemma {:induction false} DrainEventsAgrees(s: State, peers: Peers, calls: seq<(P.Env, seq<Effect>)>)
    requires Shape(s) && Connections(s) && Queues(s) && s.acceptQueue == [] && ScriptsOk(s, Seconds(calls))
    requires Agrees(s, peers) && EnvsOk(calls) && CallsOk(s, peers, calls)
    ensures Agrees(DrainEvents(s, Seconds(calls)), ServePeers(s, peers, calls))
    decreases |calls|
  {
    hide Connections, Queues, RunEvent, PopEvent, Agrees, Served, CallOk, ScriptsOk, DrainEvents, OwnScript, Handled, K.TextsOk;
    DrainEventsUnfold(s, Seconds(calls));
    if calls != [] {
      assert Seconds(calls)[0] == calls[0].1 && Seconds(calls)[1..] == Seconds(calls[1..]);
      var t := RunEvent(s, s.eventQueue[0], calls[0].1);
      EventAgrees(s, peers, calls[0]);
      RunEventKeeps(s, calls[0].1);
      HandledFacts(s, t);
      PopEventKeeps(t);
      var ps := Served(s.eventQueue[0], peers, calls[0].0);
      PopAgrees(t, ps);
      DrainEventsAgrees(PopEvent(t), ps, calls[1..]);
    }
  }

  // ---------------------------------------------------------- runs of peers

  lemma AcceptedIsRun(incoming: seq<R.Recv>)
    ensures IsRun(P.Accepted(incoming))
  {
    assert P.EnvsOk([]) && P.Turns(P.Accepted(incoming), []) == P.Accepted(incoming);
  }

  lemma DispatchedIsRun(p: P.Peer, env: P.Env)
    requires IsRun(p) && K.TextsOk(env.texts)
    ensures IsRun(P.Dispatched(p, env))
  {
    hide P.Dispatched, K.TextsOk;
    var incoming, envs :| P.EnvsOk(envs) && p == P.Turns(P.Accepted(incoming), envs);
    var more := envs + [env];
    assert more[..|envs|] == envs;
    assert P.EnvsOk(more) && P.Turns(P.Accepted(incoming), more) == P.Dispatched(p, env);
  }

  lemma {:induction false} AcceptRuns(s: State, peers: Peers, accepts: seq<(Accepted, seq<R.Recv>)>)
    requires Shape(s) && AllRuns(peers)
    ensures AllRuns(AcceptPeers(s, peers, accepts))
    decreases |accepts|
  {
    hide RunAccept, PopAccept, IsRun;
    if s.acceptQueue != [] && accepts != [] {
      AcceptedIsRun(accepts[0].1);
      var t := RunAccept(s, s.acceptQueue[0], accepts[0].0);
      if t.acceptQueue != [] {
        AcceptRuns(PopAccept(t), Admitted(s, peers, accepts[0].0, accepts[0].1), accepts[1..]);
      }
    }
  }

  lemma ServedRuns(r: Ref, peers: Peers, env: P.Env)
    requires AllRuns(peers) && K.TextsOk(env.texts)
    ensures AllRuns(Served(r, peers, env))
  {
    hide IsRun, P.Dispatched, K.TextsOk;
    if r.slot in peers { DispatchedIsRun(peers[r.slot], env); }
  }

  lemma {:induction false} ServeRuns(s: State, peers: Peers, calls: seq<(P.Env, seq<Effect>)>)
    requires Shape(s) && AllRuns(peers) && EnvsOk(calls)
    ensures AllRuns(ServePeers(s, peers, calls))
    decreases |calls|
  {
    hide RunEvent, PopEvent, AllRuns, Served, K.TextsOk;
    if s.eventQueue != [] && calls != [] {
      ServedRuns(s.eventQueue[0], peers, calls[0].0);
      var t := RunEvent(s, s.eventQueue[0], calls[0].1);
      if t.eventQueue != [] {
        ServeRuns(PopEvent(t), Served(s.eventQueue[0], peers, calls[0].0), calls[1..]);
      }
    }
  }

  // -------------------------------------------------------------- whole runs

  lemma TickAgrees(s: State, peers: Peers, d: Drive)
    requires Idle(s) && DriveOk(s, peers, d) && Agrees(s, peers)
    ensures Shape(s) && Idle(Tick(s, InputOf(d))) && Agrees(Tick(s, InputOf(d)), TickPeers(s, peers, d))
  {
    hide Idle, Queues, QueuedInUse, Connections, AcceptsOk, ScriptsOk, Poll, DrainAccept, DrainEvents, SelectOk, Agrees,
      CallsOk, AcceptPeers, ServePeers, EnvsOk, Tick;
    var i := InputOf(d);
    TickKeeps(s, i);
    TickPhases(s, i);
    var p := Poll(s, d.select, d.bad);
    PollAgrees(s, peers, d.select, d.bad);
    DrainAcceptAgrees(p, peers, d.accepts);
    DrainEventsAgrees(DrainAccept(p, i.accepts), AcceptPeers(p, peers, d.accepts), d.calls);
  }

  lemma TickRuns(s: State, peers: Peers, d: Drive)
    requires Shape(s) && EnvsOk(d.calls) && AllRuns(peers)
    ensures AllRuns(TickPeers(s, peers, d))
  {
    hide AllRuns, Poll, DrainAccept, EnvsOk, AcceptPeers, ServePeers;
    var p := Poll(s, d.select, d.bad);
    AcceptRuns(p, peers, d.accepts);
    ServeRuns(DrainAccept(p, Firsts(d.accepts)), AcceptPeers(p, peers, d.accepts), d.calls);
  }

  /** Over any run of the daemon, with any interleaving of its connections and slots that are
      reused: the loop is idle between ticks, the connections served by packet handlers are
      exactly those with a peer, each read event has the handler its peer stands before, and
      each peer is a run of its own since its acceptance. */
  lemma {:induction false} RunAgrees(s: State, peers: Peers, drives: seq<Drive>)
    requires Shape(s) && Idle(s) && DrivesOk(s, peers, drives) && Agrees(s, peers) && AllRuns(peers)
    ensures var (t, ps) := Driven(s, peers, drives);
      Shape(t) && Idle(t) && Agrees(t, ps) && AllRuns(ps)
    decreases |drives|
  {
    hide Idle, Agrees, AllRuns, Tick, TickPeers, DriveOk, InputOf;
    if drives != [] {
      var d := drives[0];
      TickAgrees(s, peers, d);
      DriveEnvs(s, peers, d);
      TickRuns(s, peers, d);
      RunAgrees(Tick(s, InputOf(d)), TickPeers(s, peers, d), drives[1..]);
    }
  }

  lemma DriveEnvs(s: State, peers: Peers, d: Drive)
    requires Shape(s) && DriveOk(s, peers, d)
    ensures EnvsOk(d.calls)
  {
  }

  /** In every state a run of the daemon reaches, what each connection has handed to send() is
      the answers to its own packets, one for each that is answered, in order, however the
      connections were interleaved. */
  lemma RunAnswers(s: State, peers: Peers, drives: seq<Drive>, k: nat)
    requires Shape(s) && Idle(s) && DrivesOk(s, peers, drives) && Agrees(s, peers) && AllRuns(peers)
    requires k in Driven(s, peers, drives).1
    ensures exists incoming, work ::
      P.WorkOk(work) && P.Did(P.Accepted(incoming), Driven(s, peers, drives).1[k], work)
  {
    hide Idle, Agrees, DrivesOk, Driven, P.Did;
    RunAgrees(s, peers, drives);
    var p := Driven(s, peers, drives).1[k];
    var incoming, envs :| P.EnvsOk(envs) && p == P.Turns(P.Accepted(incoming), envs);
    P.SentAnswers(P.Accepted(incoming), envs);
    assert P.Did(P.Accepted(incoming), p, P.Work(P.Accepted(incoming), envs));
  }

  /** A table just built and one that listens have no packet connections, and no peers. */
  lemma StartAgrees(raw: map<Ref, Event>, n: nat)
    requires forall r: Ref :: r in raw <==> r.slot < n
    ensures Agrees(Initial(raw, n), map[])
  {
  }

  lemma ListenAgrees(s: State, fd: int)
    requires Shape(s) && Idle(s) && s.free != [] && fd >= 0 && fd !in s.fds && Agrees(s, map[])
    ensures Agrees(Listen(s, fd), map[])
  {
    hide Connections, Queues;
  }
}
