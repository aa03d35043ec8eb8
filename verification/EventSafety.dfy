/** Slots are reused safely, over whole runs: with the handlers the program has, no write
    event is ever registered or queued, a slot is only wiped when neither of its events is
    linked anywhere, and no event of a free slot is linked except the one being handled. */
module EventSafety {
  import opened EventState
  import opened EventInvariant
  import opened EventPoll
  import opened EventRun

  ghost predicate ReadsOnly(xs: seq<Ref>) {
    forall p :: 0 <= p < |xs| ==> !xs[p].write
  }

  /** No write event is in the registry or in a queue. */
  ghost predicate WriteFree(s: State) {
    ReadsOnly(s.index) && ReadsOnly(s.acceptQueue) && ReadsOnly(s.eventQueue)
  }

  /** No script of the run hands a write event to the loop. */
  ghost predicate WritelessRun(inputs: seq<Input>) {
    forall i, j :: 0 <= i < |inputs| && 0 <= j < |inputs[i].scripts| ==> Writeless(inputs[i].scripts[j])
  }

  lemma DelReads(s: State, r: Ref)
    requires Shape(s) && r in s.events && ReadsOnly(s.index)
    ensures var t := Del(s, r);
      ReadsOnly(t.index) && t.acceptQueue == s.acceptQueue && t.eventQueue == s.eventQueue && t.events.Keys == s.events.Keys
  {
  }

  lemma HandleReadReads(s: State, k: nat, close: bool)
    requires Shape(s) && k < |s.fds| && WriteFree(s)
    ensures WriteFree(HandleRead(s, k, close)) && |HandleRead(s, k, close).fds| == |s.fds|
  {
    hide Del;
    DelReads(Add(s, Ref(k, false)), Ref(k, false));
    DelSize(Add(s, Ref(k, false)), Ref(k, false));
  }

  lemma DelSize(s: State, r: Ref)
    requires Shape(s) && r in s.events
    ensures |Del(s, r).fds| == |s.fds|
  {
  }

  lemma CloseReads(s: State, k: nat)
    requires Shape(s) && k < |s.fds| && WriteFree(s)
    ensures WriteFree(Close(s, k)) && |Close(s, k).fds| == |s.fds|
  {
    hide Del;
    var r, w := Ref(k, false), Ref(k, true);
    DelReads(s, r);
    DelSize(s, r);
    DelReads(DelActive(s, r), w);
    DelSize(DelActive(s, r), w);
  }

  lemma ApplyReads(s: State, k: nat, e: Effect)
    requires Shape(s) && k < |s.fds| && WriteFree(s) && !e.HandleWriteEvent?
    ensures WriteFree(Apply(s, k, e)) && |Apply(s, k, e).fds| == |s.fds|
  {
    hide Del, Close, HandleRead, ReadsOnly;
    match e
    case HandleReadEvent(close) => HandleReadReads(s, k, close);
    case BlockRead =>
      DelReads(s, Ref(k, false));
      DelSize(s, Ref(k, false));
    case CloseConnection => CloseReads(s, k);
    case _ =>
  }

  lemma {:induction false} EffectsReads(s: State, k: nat, es: seq<Effect>)
    requires Shape(s) && k < |s.fds| && WriteFree(s) && Writeless(es)
    ensures WriteFree(Effects(s, k, es))
    decreases |es|
  {
    hide Apply, WriteFree;
    if es != [] {
      ApplyReads(s, k, es[0]);
      EffectsReads(Apply(s, k, es[0]), k, es[1..]);
    }
  }

  lemma RunEventReads(s: State, es: seq<Effect>)
    requires Shape(s) && s.eventQueue != [] && WriteFree(s) && Writeless(es)
    ensures var t := RunEvent(s, s.eventQueue[0], es);
      WriteFree(t) && (t.eventQueue != [] ==> WriteFree(PopEvent(t)))
  {
    hide Effects;
    var r := s.eventQueue[0];
    EffectsReads(s.(ran := s.ran + [r]), r.slot, es);
  }

  lemma {:induction false} DrainEventsReads(s: State, scripts: seq<seq<Effect>>)
    requires Shape(s) && WriteFree(s) && forall j :: 0 <= j < |scripts| ==> Writeless(scripts[j])
    ensures WriteFree(DrainEvents(s, scripts))
    decreases |scripts|
  {
    hide WriteFree, RunEvent, Writeless, PopEvent;
    if s.eventQueue != [] && scripts != [] {
      RunEventReads(s, scripts[0]);
      var t := RunEvent(s, s.eventQueue[0], scripts[0]);
      if t.eventQueue != [] {
        DrainEventsReads(PopEvent(t), scripts[1..]);
      }
    }
  }

  lemma RunAcceptReads(s: State, a: Accepted)
    requires Shape(s) && s.acceptQueue != [] && WriteFree(s)
    ensures var t := RunAccept(s, s.acceptQueue[0], a);
      WriteFree(t) && (t.acceptQueue != [] ==> WriteFree(PopAccept(t)))
  {
    hide HandleRead;
    var r := s.acceptQueue[0];
    var n := SetEvent(s, r, s.events[r].(ready := false)).(ran := s.ran + [r]);
    if a.Opened? && n.free != [] {
      HandleReadReads(SetUp(Get(n, a.fd), n.free[0]), n.free[0], false);
    }
  }

  lemma {:induction false} DrainAcceptReads(s: State, accepts: seq<Accepted>)
    requires Shape(s) && WriteFree(s)
    ensures WriteFree(DrainAccept(s, accepts))
    decreases |accepts|
  {
    hide WriteFree, RunAccept, PopAccept;
    if s.acceptQueue != [] && accepts != [] {
      RunAcceptReads(s, accepts[0]);
      var t := RunAccept(s, s.acceptQueue[0], accepts[0]);
      if t.acceptQueue != [] {
        DrainAcceptReads(PopAccept(t), accepts[1..]);
      }
    }
  }

  lemma PostReads(s: State, r: Ref)
    requires Shape(s) && r in s.events && !r.write && WriteFree(s)
    ensures WriteFree(Post(s, r))
  {
  }

  lemma ScanOne(s: State, workRead: set<int>, workWrite: set<int>, i: nat)
    requires Shape(s) && 0 < i <= |s.index|
    ensures var t, u := Scan(s, workRead, workWrite, i - 1).0, Scan(s, workRead, workWrite, i).0; var r := s.index[i - 1];
      r in s.events && r in t.events && (u == t || u == Post(t, r))
  {
    hide Found, Post;
  }

  lemma {:induction false} ScanReads(s: State, workRead: set<int>, workWrite: set<int>, i: nat)
    requires Shape(s) && i <= |s.index| && WriteFree(s)
    ensures WriteFree(Scan(s, workRead, workWrite, i).0)
  {
    hide Found, Post, WriteFree, Scan, Shape;
    if i == 0 {
      ScanZero(s, workRead, workWrite);
    } else {
      ScanReads(s, workRead, workWrite, i - 1);
      ScanOne(s, workRead, workWrite, i);
      IndexReads(s, i - 1);
      PostReads(Scan(s, workRead, workWrite, i - 1).0, s.index[i - 1]);
    }
  }

  lemma ScanZero(s: State, workRead: set<int>, workWrite: set<int>)
    requires Shape(s)
    ensures Scan(s, workRead, workWrite, 0).0 == s
  {
  }

  lemma IndexReads(s: State, p: nat)
    requires Shape(s) && p < |s.index| && WriteFree(s)
    ensures !s.index[p].write
  {
  }

  lemma PollReads(s: State, sel: Select, bad: set<int>)
    requires Shape(s) && WriteFree(s)
    ensures WriteFree(Poll(s, sel, bad))
  {
    hide Scan, MaxFd;
    var f := FillMax(s);
    if sel.Reported? { ScanReads(f, sel.workRead, sel.workWrite, |f.index|); }
  }

  lemma TickReads(s: State, i: Input)
    requires Shape(s) && WriteFree(s) && forall j :: 0 <= j < |i.scripts| ==> Writeless(i.scripts[j])
    ensures WriteFree(Tick(s, i))
    ensures WriteFree(DrainAccept(Poll(s, i.select, i.bad), i.accepts))
  {
    hide Poll, DrainAccept, DrainEvents, WriteFree, Writeless;
    PollReads(s, i.select, i.bad);
    DrainAcceptReads(Poll(s, i.select, i.bad), i.accepts);
    DrainEventsReads(DrainAccept(Poll(s, i.select, i.bad), i.accepts), i.scripts);
  }

  /** With handlers that never hand over a write event, none is ever registered or queued. */
  lemma {:induction false} RunNeverWrites(s: State, inputs: seq<Input>)
    requires Shape(s) && WriteFree(s) && WritelessRun(inputs)
    ensures WriteFree(Ticks(s, inputs))
    decreases |inputs|
  {
    hide Tick, WriteFree, Writeless;
    if inputs != [] {
      TickReads(s, inputs[0]);
      RunNeverWrites(Tick(s, inputs[0]), inputs[1..]);
    }
  }

  /** A table just built, and one that is listening, has no write event registered. */
  lemma StartsWriteFree(raw: map<Ref, Event>, n: nat, s: State, fd: int)
    requires forall r: Ref :: r in raw <==> r.slot < n
    requires Shape(s) && WriteFree(s) && s.free != []
    ensures WriteFree(Initial(raw, n)) && WriteFree(Listen(s, fd))
  {
  }

  // --------------------------------------------------------- wiping a slot

  /** Wiping the slot at the head of the free list destroys nothing that is linked. */
  ghost predicate SafeToWipe(s: State)
    requires s.free != []
  {
    forall w :: var r := Ref(s.free[0], w);
      !Registered(s, r) && r !in s.index && r !in s.acceptQueue && r !in s.eventQueue
  }

  /** Each time a slot is taken while the accept queue is drained, it is safe to wipe. */
  ghost predicate GetsSafe(s: State, accepts: seq<Accepted>)
    requires Shape(s)
    decreases |accepts|
  {
    s.acceptQueue != [] && accepts != [] ==>
      var n := NotReady(s, s.acceptQueue[0]);
      && (!accepts[0].NoSocket? && n.free != [] ==> SafeToWipe(n))
      && var t := RunAccept(s, s.acceptQueue[0], accepts[0]);
         t.acceptQueue != [] ==> GetsSafe(PopAccept(t), accepts[1..])
  }

  lemma {:induction false} DrainGetsSafe(s: State, accepts: seq<Accepted>)
    requires Shape(s) && Connections(s) && Queues(s) && QueuedInUse(s) && AcceptsOk(s, accepts)
    ensures GetsSafe(s, accepts)
    decreases |accepts|
  {
    hide Connections, Queues, QueuedInUse, RunAccept, PopAccept, NotReady, AcceptOk, DrainAccept, Registered;
    DrainAcceptUnfold(s, accepts);
    if accepts != [] {
      var n, t := NotReady(s, s.acceptQueue[0]), RunAccept(s, s.acceptQueue[0], accepts[0]);
      NotReadyKeeps(s);
      if n.free != [] { WipeIsSafe(n); }
      RunAcceptKeeps(s, accepts[0]);
      PopAcceptKeeps(t);
      DrainGetsSafe(PopAccept(t), accepts[1..]);
    }
  }

  // ------------------------------------------------------ while handlers run

  /** No event of a free slot is linked anywhere, except the one at the head of the queue. */
  ghost predicate FreeUnlinked(t: State) {
    forall k, w :: k in t.free ==>
      && Ref(k, w) !in t.index && Ref(k, w) !in t.acceptQueue
      && (Ref(k, w) in t.eventQueue ==> Ref(k, w) == t.eventQueue[0])
  }

  /** This holds when each queued handler returns. */
  ghost predicate HandlersSafe(s: State, scripts: seq<seq<Effect>>)
    requires Shape(s)
    decreases |scripts|
  {
    s.eventQueue != [] && scripts != [] ==>
      var t := RunEvent(s, s.eventQueue[0], scripts[0]);
      FreeUnlinked(t) && (t.eventQueue != [] ==> HandlersSafe(PopEvent(t), scripts[1..]))
  }

  lemma FreeIsUnlinked(s: State, t: State)
    requires Shape(s) && Shape(t) && s.eventQueue != [] && Handled(s, t) && WriteFree(t)
    ensures FreeUnlinked(t)
  {
    hide Masters, Cache, Roles, Local, FlagSide, Distinct;
    var u := PopEvent(t);
    assert t.eventQueue == [t.eventQueue[0]] + u.eventQueue;
    assert u.fds == t.fds;
  }

  lemma {:induction false} DrainHandlersSafe(s: State, scripts: seq<seq<Effect>>)
    requires Shape(s) && Connections(s) && Queues(s) && s.acceptQueue == [] && ScriptsOk(s, scripts)
    requires WriteFree(s) && forall j :: 0 <= j < |scripts| ==> Writeless(scripts[j])
    ensures HandlersSafe(s, scripts)
    decreases |scripts|
  {
    hide Connections, Queues, RunEvent, PopEvent, Handled, ScriptsOk, WriteFree, FreeUnlinked, Writeless, OwnScript, DrainEvents;
    DrainEventsUnfold(s, scripts);
    if scripts != [] {
      var t := RunEvent(s, s.eventQueue[0], scripts[0]);
      RunEventKeeps(s, scripts[0]);
      RunEventReads(s, scripts[0]);
      FreeIsUnlinked(s, t);
      HandledFacts(s, t);
      PopEventKeeps(t);
      DrainHandlersSafe(PopEvent(t), scripts[1..]);
    }
  }

  /** Every slot taken and every handler called in a run is safe in this sense. */
  ghost predicate RunSafe(s: State, inputs: seq<Input>)
    requires Shape(s)
    decreases |inputs|
  {
    inputs != [] ==>
      var p := Poll(s, inputs[0].select, inputs[0].bad);
      && GetsSafe(p, inputs[0].accepts)
      && HandlersSafe(DrainAccept(p, inputs[0].accepts), inputs[0].scripts)
      && RunSafe(Tick(s, inputs[0]), inputs[1..])
  }

  /** Whole-loop safety: over any run, with handlers that may close their own connection and
      slots that are reused, no wipe destroys a linked event and no event of a free slot is
      linked except the one being handled. */
  lemma {:induction false} RunIsSafe(s: State, inputs: seq<Input>)
    requires Shape(s) && Idle(s) && InputsOk(s, inputs) && WriteFree(s) && WritelessRun(inputs)
    ensures RunSafe(s, inputs)
    decreases |inputs|
  {
    hide Tick, Idle, InputOk, Poll, DrainAccept, DrainEvents, GetsSafe, HandlersSafe, WriteFree, Writeless, Connections, Queues, QueuedInUse, AcceptsOk, ScriptsOk;
    if inputs != [] {
      var i := inputs[0];
      TickPhases(s, i);
      DrainGetsSafe(Poll(s, i.select, i.bad), i.accepts);
      TickReads(s, i);
      DrainHandlersSafe(DrainAccept(Poll(s, i.select, i.bad), i.accepts), i.scripts);
      TickKeeps(s, i);
      RunIsSafe(Tick(s, i), inputs[1..]);
    }
  }
}
