/** A connection whose packet was refused stays blocked: the next time its event is ready its
    handler takes the event out of the registry, and after that it is never called again and its
    slot is never given back. */
module Blocking {
  import opened EventState
  import opened EventInvariant
  import opened EventPoll
  import opened EventRun
  import opened EventTheorems
  import opened Daemon
  import R = AdbReader
  import P = AdbPeer
  import K = Packet

  /** Blocked, and no longer watched. */
  ghost predicate Stopped(s: State, peers: Peers, k: nat)
    requires Shape(s)
  {
    InUse(s, k) && k in peers && peers[k].conn.Blocked? && !Registered(s, Ref(k, false))
  }

  /** Its bit is clear, and no select() result makes its event ready. */
  lemma StoppedUnseen(s: State, peers: Peers, sel: Select, k: nat)
    requires Shape(s) && Idle(s) && Stopped(s, peers, k) && SelectOk(FillMax(s), sel)
    ensures s.fds[k] !in s.masterRead && Ref(k, false) !in ReadyEvents(s, sel)
  {
    hide Registered, Registry, Cache, Roles, Queues, SelectOk, ReadyEvents;
    UnwatchedBit(s, k);
    if !sel.Failed? { ReadyIsFound(s, sel); } else { FailedReady(s, sel); }
  }

  lemma FailedReady(s: State, sel: Select)
    requires Shape(s) && sel.Failed?
    ensures ReadyEvents(s, sel) == []
  {
  }

  /** Changes that leave the slot's descriptor and the registry alone. */
  lemma SameStopped(s: State, t: State, peers: Peers, ps: Peers, k: nat)
    requires Shape(s) && Shape(t) && Stopped(s, peers, k) && k < |t.fds| && t.fds[k] == s.fds[k]
    requires Registered(t, Ref(k, false)) ==> Registered(s, Ref(k, false))
    requires k in ps && ps[k] == peers[k]
    ensures Stopped(t, ps, k)
  {
  }

  lemma PopSame(s: State, r: Ref)
    requires Shape(s) && r in s.events
    ensures s.acceptQueue != [] ==> PopAccept(s).fds == s.fds && (Registered(PopAccept(s), r) <==> Registered(s, r))
    ensures s.eventQueue != [] ==> PopEvent(s).fds == s.fds && (Registered(PopEvent(s), r) <==> Registered(s, r))
  {
  }

  lemma NotReadySame(s: State, r: Ref)
    requires Shape(s) && s.acceptQueue != [] && r in s.events
    ensures var n := NotReady(s, s.acceptQueue[0]);
      n.fds == s.fds && n.free == s.free && r in n.events && (Registered(n, r) <==> Registered(s, r))
  {
  }

  lemma OtherSame(s: State, t: State, j: nat, k: nat)
    requires Shape(s) && Shape(t) && Elsewhere(s, t, j) && j != k && k < |s.fds|
    ensures k < |t.fds| && t.fds[k] == s.fds[k] && (Registered(t, Ref(k, false)) <==> Registered(s, Ref(k, false)))
  {
    hide Registered;
  }

  // -------------------------------------------------------------- accepting

  lemma AcceptStopped(s: State, peers: Peers, a: Accepted, incoming: seq<R.Recv>, k: nat)
    requires Shape(s) && Connections(s) && Queues(s) && QueuedInUse(s) && AcceptOk(s, a) && s.acceptQueue != []
    requires Agrees(s, peers) && Stopped(s, peers, k)
    ensures s.acceptQueue[0] in s.events
    ensures var t, ps := RunAccept(s, s.acceptQueue[0], a), Admitted(s, peers, a, incoming);
      Stopped(t, ps, k) && ps[k] == peers[k]
  {
    hide Queues, QueuedInUse, Connections, RunAccept, NotReady, Get, InitConnection, Agrees, Elsewhere, Registered, Distinct;
    var r := s.acceptQueue[0];
    HeadInUse(s);
    RunAcceptUnfold(s, r, a);
    NotReadyKeeps(s);
    var n, t := NotReady(s, r), RunAccept(s, r, a);
    NotReadySame(s, Ref(k, false));
    NotReadyAgrees(s, peers);
    if !a.NoSocket? && n.free != [] {
      AcceptedKeeps(n, a);
      HeadFree(n, peers);
      OtherSame(n, t, n.free[0], k);
    }
    SameStopped(s, t, peers, Admitted(s, peers, a, incoming), k);
  }

  lemma {:induction false} DrainAcceptStopped(s: State, peers: Peers, accepts: seq<(Accepted, seq<R.Recv>)>, k: nat)
    requires Shape(s) && Connections(s) && Queues(s) && QueuedInUse(s) && AcceptsOk(s, Firsts(accepts))
    requires Agrees(s, peers) && Stopped(s, peers, k)
    ensures var t, ps := DrainAccept(s, Firsts(accepts)), AcceptPeers(s, peers, accepts);
      Stopped(t, ps, k) && ps[k] == peers[k]
    decreases |accepts|
  {
    hide Connections, Queues, QueuedInUse, RunAccept, PopAccept, Agrees, Admitted, AcceptOk, AcceptsOk, DrainAccept, Registered;
    DrainAcceptUnfold(s, Firsts(accepts));
    if accepts != [] {
      assert Firsts(accepts)[0] == accepts[0].0 && Firsts(accepts)[1..] == Firsts(accepts[1..]);
      var t := RunAccept(s, s.acceptQueue[0], accepts[0].0);
      var ps := Admitted(s, peers, accepts[0].0, accepts[0].1);
      RunAcceptKeeps(s, accepts[0].0);
      PopAcceptKeeps(t);
      AcceptAgrees(s, peers, accepts[0].0, accepts[0].1);
      AcceptStopped(s, peers, accepts[0].0, accepts[0].1, k);
      PopAgrees(t, ps);
      PopSame(t, Ref(k, false));
      SameStopped(t, PopAccept(t), ps, ps, k);
      DrainAcceptStopped(PopAccept(t), ps, accepts[1..], k);
    }
  }

  /** A peer the accept handlers do not touch. */
  lemma {:induction false} DrainAcceptPeer(s: State, peers: Peers, accepts: seq<(Accepted, seq<R.Recv>)>, k: nat)
    requires Shape(s) && Connections(s) && Queues(s) && QueuedInUse(s) && AcceptsOk(s, Firsts(accepts))
    requires Agrees(s, peers) && k in peers
    ensures var ps := AcceptPeers(s, peers, accepts); k in ps && ps[k] == peers[k]
    decreases |accepts|
  {
    hide Connections, Queues, QueuedInUse, RunAccept, PopAccept, Agrees, AcceptOk, AcceptsOk, DrainAccept;
    DrainAcceptUnfold(s, Firsts(accepts));
    if accepts != [] {
      assert Firsts(accepts)[0] == accepts[0].0 && Firsts(accepts)[1..] == Firsts(accepts[1..]);
      var t := RunAccept(s, s.acceptQueue[0], accepts[0].0);
      var ps := Admitted(s, peers, accepts[0].0, accepts[0].1);
      if s.free != [] { HeadFree(s, peers); }
      RunAcceptKeeps(s, accepts[0].0);
      PopAcceptKeeps(t);
      AcceptAgrees(s, peers, accepts[0].0, accepts[0].1);
      PopAgrees(t, ps);
      DrainAcceptPeer(PopAccept(t), ps, accepts[1..], k);
    }
  }

  // ---------------------------------------------------------------- serving

  lemma EventElsewhere(s: State, s0: State, t: State, r: Ref, es: seq<Effect>)
    requires Shape(s) && r in s.events && Connections(s) && Queues(s) && s.acceptQueue == [] && OwnScript(es)
    requires s.eventQueue != [] && s.eventQueue[0] == r
    requires t == RunEvent(s, r, es) && s0 == s.(ran := t.ran) && Shape(s0)
    ensures Elsewhere(s0, t, r.slot)
  {
    hide Connections, Queues, Elsewhere, RunEvent, PopEvent;
    RunEventKeeps(s, es);
  }

  lemma WriteEventSame(s: State, es: seq<Effect>)
    requires Shape(s) && Queues(s) && s.eventQueue != [] && s.eventQueue[0].write
    ensures var t := RunEvent(s, s.eventQueue[0], es); t == s.(ran := t.ran)
  {
  }

  /** A handler called for another event leaves the connection stopped. */
  lemma EventStopped(s: State, peers: Peers, call: (P.Env, seq<Effect>), k: nat)
    requires Shape(s) && Connections(s) && Queues(s) && s.acceptQueue == [] && s.eventQueue != []
    requires Agrees(s, peers) && CallOk(s.eventQueue[0], peers, call)
    requires k in peers && s.eventQueue[0] != Ref(k, false)
    ensures var t, ps := RunEvent(s, s.eventQueue[0], call.1), Served(s.eventQueue[0], peers, call.0);
      k in ps && ps[k] == peers[k] && (Stopped(s, peers, k) ==> Stopped(t, ps, k))
  {
    hide Connections, Queues, Agrees, Elsewhere, RunEvent, OwnScript, P.Dispatched, P.ScriptFor, Registered;
    var r, t := s.eventQueue[0], RunEvent(s, s.eventQueue[0], call.1);
    var ps := Served(r, peers, call.0);
    assert r.write || r.slot != k by { assert r == Ref(r.slot, r.write); }
    if Stopped(s, peers, k) {
      if r.write {
        WriteEventSame(s, call.1);
      } else {
        var s0 := s.(ran := t.ran);
        EventElsewhere(s, s0, t, r, call.1);
        OtherSame(s0, t, r.slot, k);
      }
      Relabelled(s, t, Ref(k, false));
      SameStopped(s, t, peers, ps, k);
    }
  }

  lemma Relabelled(s: State, t: State, r: Ref)
    ensures Registered(s.(ran := t.ran), r) <==> Registered(s, r)
  {
  }

  /** The handler of a blocked connection stops it. */
  lemma BlockedStops(s: State, peers: Peers, call: (P.Env, seq<Effect>), k: nat)
    requires Shape(s) && Connections(s) && Queues(s) && s.acceptQueue == [] && s.eventQueue != []
    requires Agrees(s, peers) && CallOk(s.eventQueue[0], peers, call)
    requires k in peers && peers[k].conn.Blocked? && s.eventQueue[0] == Ref(k, false)
    ensures Stopped(RunEvent(s, s.eventQueue[0], call.1), Served(s.eventQueue[0], peers, call.0), k)
  {
    hide Connections, Queues, Elsewhere, OwnScript, Registered, Apply, Effects, P.Turn, K.TextsOk;
    var r := s.eventQueue[0];
    HeadEvent(s);
    var s0 := s.(ran := s.ran + [r]);
    Relabel(s, s0);
    P.WhatShuts(peers[k].(ready := true), call.0);
    assert call.1 == [BlockRead];
    OneEffect(s0, k, BlockRead);
    BlockReadStops(s0, k);
  }

  lemma OneEffect(s: State, k: nat, e: Effect)
    requires Shape(s) && k < |s.fds|
    ensures Effects(s, k, [e]) == Apply(s, k, e)
  {
    assert [e][1..] == [];
  }

  lemma {:induction false} DrainEventsStopped(s: State, peers: Peers, calls: seq<(P.Env, seq<Effect>)>, k: nat)
    requires Shape(s) && Connections(s) && Queues(s) && s.acceptQueue == [] && ScriptsOk(s, Seconds(calls))
    requires Agrees(s, peers) && EnvsOk(calls) && CallsOk(s, peers, calls)
    requires Stopped(s, peers, k) && Ref(k, false) !in s.eventQueue
    ensures var t, ps := DrainEvents(s, Seconds(calls)), ServePeers(s, peers, calls);
      Stopped(t, ps, k) && ps[k] == peers[k]
    decreases |calls|
  {
    hide Connections, Queues, RunEvent, PopEvent, Agrees, Served, CallOk, ScriptsOk, DrainEvents, OwnScript, Handled, K.TextsOk, Registered;
    DrainEventsUnfold(s, Seconds(calls));
    if calls != [] {
      assert Seconds(calls)[0] == calls[0].1 && Seconds(calls)[1..] == Seconds(calls[1..]);
      var t := RunEvent(s, s.eventQueue[0], calls[0].1);
      var ps := Served(s.eventQueue[0], peers, calls[0].0);
      EventAgrees(s, peers, calls[0]);
      EventStopped(s, peers, calls[0], k);
      RunEventKeeps(s, calls[0].1);
      HandledFacts(s, t);
      PopEventKeeps(t);
      PopAgrees(t, ps);
      PopSame(t, Ref(k, false));
      SameStopped(t, PopEvent(t), ps, ps, k);
      DrainEventsStopped(PopEvent(t), ps, calls[1..], k);
    }
  }

  lemma QueueHead(s: State, r: Ref)
    requires Shape(s) && Queues(s) && s.eventQueue != []
    ensures r in s.eventQueue[1..] <==> r in s.eventQueue && r != s.eventQueue[0]
  {
    hide Distinct;
    Tail(s.eventQueue);
  }

  lemma {:induction false} DrainEventsStops(s: State, peers: Peers, calls: seq<(P.Env, seq<Effect>)>, k: nat)
    requires Shape(s) && Connections(s) && Queues(s) && s.acceptQueue == [] && ScriptsOk(s, Seconds(calls))
    requires Agrees(s, peers) && EnvsOk(calls) && CallsOk(s, peers, calls)
    requires k in peers && peers[k].conn.Blocked? && Ref(k, false) in s.eventQueue
    ensures Stopped(DrainEvents(s, Seconds(calls)), ServePeers(s, peers, calls), k)
    decreases |calls|
  {
    hide Connections, Queues, RunEvent, PopEvent, Agrees, Served, CallOk, ScriptsOk, DrainEvents, OwnScript, Handled, K.TextsOk, Registered, Stopped;
    DrainEventsUnfold(s, Seconds(calls));
    assert calls != [];
    assert Seconds(calls)[0] == calls[0].1 && Seconds(calls)[1..] == Seconds(calls[1..]);
    var t := RunEvent(s, s.eventQueue[0], calls[0].1);
    var ps := Served(s.eventQueue[0], peers, calls[0].0);
    EventAgrees(s, peers, calls[0]);
    RunEventKeeps(s, calls[0].1);
    HandledFacts(s, t);
    PopEventKeeps(t);
    PopAgrees(t, ps);
    QueueHead(s, Ref(k, false));
    if s.eventQueue[0] == Ref(k, false) {
      BlockedStops(s, peers, calls[0], k);
      PopSame(t, Ref(k, false));
      PoppedStopped(t, ps, k);
      DrainEventsStopped(PopEvent(t), ps, calls[1..], k);
    } else {
      EventStopped(s, peers, calls[0], k);
      DrainEventsStops(PopEvent(t), ps, calls[1..], k);
    }
  }

  lemma PoppedStopped(s: State, peers: Peers, k: nat)
    requires Shape(s) && s.eventQueue != [] && Stopped(s, peers, k)
    ensures Stopped(PopEvent(s), peers, k)
  {
    hide Registered, PopEvent;
    PopSame(s, Ref(k, false));
    SameStopped(s, PopEvent(s), peers, peers, k);
  }

  // ------------------------------------------------------------------- ticks

  /** What the drains of a tick start from. */
  lemma TickStart(s: State, peers: Peers, d: Drive)
    requires Idle(s) && DriveOk(s, peers, d) && Agrees(s, peers)
    ensures Shape(s) && SelectOk(FillMax(s), d.select)
    ensures var p, h := Poll(s, d.select, d.bad), ReadyEvents(s, d.select);
      && Connections(p) && Queues(p) && QueuedInUse(p) && AcceptsOk(p, Firsts(d.accepts)) && Agrees(p, peers)
      && var e, ps := DrainAccept(p, Firsts(d.accepts)), AcceptPeers(p, peers, d.accepts);
         && Connections(e) && Queues(e) && e.acceptQueue == [] && ScriptsOk(e, Seconds(d.calls)) && Agrees(e, ps)
         && EnvsOk(d.calls) && CallsOk(e, ps, d.calls) && e.eventQueue == Pick(s, h, false)
         && Tick(s, InputOf(d)) == DrainEvents(e, Seconds(d.calls)) && TickPeers(s, peers, d) == ServePeers(e, ps, d.calls)
  {
    hide Queues, QueuedInUse, AcceptsOk, ScriptsOk, Poll, DrainAccept, DrainEvents, SelectOk, Masters, Cache, Table, Roles, Agrees,
      CallsOk, AcceptPeers, ServePeers, EnvsOk, Registry, Pick;
    var i := InputOf(d);
    PollQueues(s, i);
    DrainAcceptKeeps(Poll(s, d.select, d.bad), i.accepts);
    PollAgrees(s, peers, d.select, d.bad);
    DrainAcceptAgrees(Poll(s, d.select, d.bad), peers, d.accepts);
  }

  lemma PolledStopped(s: State, peers: Peers, sel: Select, bad: set<int>, k: nat)
    requires Shape(s) && Stopped(s, peers, k)
    ensures Stopped(Poll(s, sel, bad), peers, k)
  {
    hide Poll;
    PollSame(s, sel, bad);
  }

  /** A tick in which the event of a blocked connection is ready stops it. */
  lemma TickStops(s: State, peers: Peers, d: Drive, k: nat)
    requires Shape(s) && Idle(s) && DriveOk(s, peers, d) && Agrees(s, peers)
    requires k in peers && peers[k].conn.Blocked? && Ref(k, false) in ReadyEvents(s, d.select)
    ensures Stopped(Tick(s, InputOf(d)), TickPeers(s, peers, d), k)
  {
    hide Idle, Connections, Queues, QueuedInUse, AcceptsOk, ScriptsOk, Poll, DrainAccept, DrainEvents, SelectOk, Agrees, DriveOk,
      CallsOk, AcceptPeers, ServePeers, EnvsOk, Stopped, Tick, TickPeers, Pick, ReadyEvents;
    TickStart(s, peers, d);
    var p := Poll(s, d.select, d.bad);
    DrainAcceptPeer(p, peers, d.accepts, k);
    PickSelects(s, ReadyEvents(s, d.select), false);
    NotAccepting(s, peers, k);
    DrainEventsStops(DrainAccept(p, Firsts(d.accepts)), AcceptPeers(p, peers, d.accepts), d.calls, k);
  }

  lemma NotAccepting(s: State, peers: Peers, k: nat)
    requires Shape(s) && Idle(s) && Agrees(s, peers) && k in peers
    ensures Ref(k, false) in s.events && !s.events[Ref(k, false)].accepted
  {
    hide Masters, Cache, Registry, Table, Queues;
    assert Role(s, k);
  }

  /** A stopped connection stays so over a tick: its handler is not called, and it keeps its slot. */
  lemma TickStopped(s: State, peers: Peers, d: Drive, k: nat)
    requires Shape(s) && Idle(s) && DriveOk(s, peers, d) && Agrees(s, peers) && Stopped(s, peers, k)
    ensures var t, ps := Tick(s, InputOf(d)), TickPeers(s, peers, d); Stopped(t, ps, k) && ps[k] == peers[k]
    ensures Ref(k, false) !in ReadyEvents(s, d.select)
  {
    hide Idle, Connections, Queues, QueuedInUse, AcceptsOk, ScriptsOk, Poll, DrainAccept, DrainEvents, SelectOk, Agrees, DriveOk,
      CallsOk, AcceptPeers, ServePeers, EnvsOk, Tick, TickPeers, Pick, ReadyEvents, Registered;
    TickStart(s, peers, d);
    StoppedUnseen(s, peers, d.select, k);
    PickSelects(s, ReadyEvents(s, d.select), false);
    var p := Poll(s, d.select, d.bad);
    PolledStopped(s, peers, d.select, d.bad, k);
    DrainAcceptStopped(p, peers, d.accepts, k);
    DrainEventsStopped(DrainAccept(p, Firsts(d.accepts)), AcceptPeers(p, peers, d.accepts), d.calls, k);
  }

  /** From `s` to `t` the connection in slot `k` stayed stopped, with the slot its own and its
      handler not called. */
  ghost predicate Untouched(s: State, peers: Peers, t: State, ps: Peers, k: nat)
    requires k in peers
  {
    && Shape(t) && Stopped(t, ps, k) && ps[k] == peers[k]
    && s.ran <= t.ran && forall i :: |s.ran| <= i < |t.ran| ==> t.ran[i] != Ref(k, false)
  }

  lemma UntouchedTrans(s: State, peers: Peers, t: State, ps: Peers, u: State, qs: Peers, k: nat)
    requires k in peers && k in ps && Untouched(s, peers, t, ps, k) && Untouched(t, ps, u, qs, k)
    ensures Untouched(s, peers, u, qs, k)
  {
    hide Stopped, Shape;
  }

  /** Over any run, a connection once stopped is never called again, and its slot is never given
      back. */
  lemma {:induction false} RunStopped(s: State, peers: Peers, drives: seq<Drive>, k: nat)
    requires Shape(s) && Idle(s) && DrivesOk(s, peers, drives) && Agrees(s, peers) && Stopped(s, peers, k)
    ensures Untouched(s, peers, Driven(s, peers, drives).0, Driven(s, peers, drives).1, k)
    decreases |drives|
  {
    hide Idle, Agrees, Tick, TickPeers, DriveOk, InputOf, Registered, InUse;
    if drives != [] {
      var d := drives[0];
      DriveEnvs(s, peers, d);
      TickAgrees(s, peers, d);
      TickStopped(s, peers, d, k);
      TickRan(s, peers, d, k);
      var t, ps := Tick(s, InputOf(d)), TickPeers(s, peers, d);
      RunStopped(t, ps, drives[1..], k);
      UntouchedTrans(s, peers, t, ps, Driven(t, ps, drives[1..]).0, Driven(t, ps, drives[1..]).1, k);
    }
  }

  lemma TickRan(s: State, peers: Peers, d: Drive, k: nat)
    requires Idle(s) && DriveOk(s, peers, d) && Ref(k, false) !in ReadyEvents(s, d.select)
    ensures var t := Tick(s, InputOf(d));
      s.ran <= t.ran && forall i :: |s.ran| <= i < |t.ran| ==> t.ran[i] != Ref(k, false)
  {
    hide Idle, Tick, ReadyEvents, Pick, Poll, DrainAccept, CallsOk;
    var h := ReadyEvents(s, d.select);
    TickKeeps(s, InputOf(d));
    PickSelects(s, h, true);
    PickSelects(s, h, false);
    var added := Pick(s, h, true) + Pick(s, h, false);
    assert Tick(s, InputOf(d)).ran == s.ran + added && Ref(k, false) !in added;
  }
}
