/** What holds of the scheduler under every interleaving of its finest steps. */
module SchedCounts {
  import opened Options
  import opened Tasks
  import opened Sched

  // ----- counters

  predicate IsActive(pc: Pc)
  {
    pc.Picked? || pc.Running? || pc.Yielded?
  }

  /** The number of workers between picking a task and no longer counting it. */
  function Active(ws: seq<Worker>): nat
  {
    if ws == [] then 0 else (if IsActive(ws[0].pc) then 1 else 0) + Active(ws[1..])
  }

  function Idle(ws: seq<Worker>): nat
  {
    if ws == [] then 0 else (if ws[0].pc.InIdle? then 1 else 0) + Idle(ws[1..])
  }

  lemma {:induction false} CountUpdate(ws: seq<Worker>, w: nat, x: Worker)
    requires w < |ws|
    ensures Active(ws[w := x]) + (if IsActive(ws[w].pc) then 1 else 0) == Active(ws) + if IsActive(x.pc) then 1 else 0
    ensures Idle(ws[w := x]) + (if ws[w].pc.InIdle? then 1 else 0) == Idle(ws) + if x.pc.InIdle? then 1 else 0
  {
    if w == 0 {
      assert ws[w := x][1..] == ws[1..];
    } else {
      CountUpdate(ws[1..], w - 1, x);
      assert ws[w := x][1..] == ws[1..][w - 1 := x];
    }
  }

  lemma {:induction false} NoneActive(ws: seq<Worker>)
    requires Active(ws) == 0
    ensures forall w :: 0 <= w < |ws| ==> !IsActive(ws[w].pc)
  {
    if ws != [] {
      NoneActive(ws[1..]);
      forall w | 0 <= w < |ws| ensures !IsActive(ws[w].pc) {
        if w > 0 {
          assert ws[w] == ws[1..][w - 1];
        }
      }
    }
  }

  predicate Counted(s: State)
  {
    s.active == Active(s.workers) && s.idle == Idle(s.workers)
  }

  function One(b: bool): int
  {
    if b then 1 else 0
  }

  /** The worker a step belongs to. */
  function Mover(a: Action): nat
  {
    match a
    case Pick(w) => w
    case Start(w, _) => w
    case YieldWrite(w, _) => w
    case Decrement(w) => w
    case Settle(w) => w
    case Arm(w) => w
    case GoIdle(w) => w
    case LeaveIdle(w) => w
    case Exit(w) => w
    case _ => 0
  }

  /** A step moves at most its own worker, and the counters with it. */
  lemma StepWorkers(s: State, a: Action)
    requires Enabled(s, a)
    ensures var s' := Next(s, a); var w := Mover(a);
            || (s'.workers == s.workers && s'.active == s.active && s'.idle == s.idle)
            || (&& w < |s.workers| && s'.workers == s.workers[w := s'.workers[w]]
                && s'.active - s.active == One(IsActive(s'.workers[w].pc)) - One(IsActive(s.workers[w].pc))
                && s'.idle - s.idle == One(s'.workers[w].pc.InIdle?) - One(s.workers[w].pc.InIdle?))
  {
    hide PickStep, StartStep, SettleStep;
    match a
    case Pick(w) => PickMoves(s, w);
    case Start(w, spare) => StartMoves(s, w, spare);
    case Settle(w) => SettleMoves(s, w);
    case _ =>
  }

  lemma PickMoves(s: State, w: nat)
    requires Enabled(s, Pick(w))
    ensures var s' := PickStep(s, w);
            && |s'.workers| == |s.workers| && s'.workers == s.workers[w := s'.workers[w]] && s'.idle == s.idle
            && (s' == s || (s'.workers[w].pc.Picked? && s'.active == s.active + 1))
  {}

  lemma StartMoves(s: State, w: nat, spare: nat)
    requires Enabled(s, Start(w, spare))
    ensures var s' := StartStep(s, w, spare);
            && |s'.workers| == |s.workers| && s'.workers == s.workers[w := s'.workers[w]] && s'.idle == s.idle
            && (|| (s'.workers[w].pc.Running? && s'.active == s.active)
                || (s'.workers[w].pc.Scan? && s'.active == s.active - 1))
  {}

  lemma SettleMoves(s: State, w: nat)
    requires Enabled(s, Settle(w))
    ensures var s' := SettleStep(s, w);
            && |s'.workers| == |s.workers| && s'.workers == s.workers[w := s'.workers[w]]
            && s'.workers[w].pc.Scan? && s'.active == s.active && s'.idle == s.idle
  {}

  lemma CountsKept(s: State, a: Action)
    requires Counted(s)
    ensures Counted(Step(s, a))
  {
    hide Next, Enabled;
    if Enabled(s, a) {
      StepWorkers(s, a);
      var s', w := Next(s, a), Mover(a);
      if s'.workers != s.workers {
        CountUpdate(s.workers, w, s'.workers[w]);
      }
    }
  }

  // ----- conservation and order of tasks

  predicate Conserved(s: State)
  {
    multiset(s.log) == multiset(s.queue) + multiset(s.taken)
  }

  /** The callbacks anybody may run, in order. */
  function OpenCalls(es: seq<Entry>): seq<Entry>
  {
    if es == [] then [] else (if IsOpenCall(es[0]) then [es[0]] else []) + OpenCalls(es[1..])
  }

  predicate IsOpenCall(e: Entry)
  {
    e.task.CallTask? && e.thread == -1
  }

  /** Open callbacks are taken in the order they were scheduled. */
  predicate InOrder(s: State)
  {
    OpenCalls(s.log) == OpenCalls(s.taken) + OpenCalls(s.queue)
  }

  lemma {:induction false} OpenCallsAppend(a: seq<Entry>, b: seq<Entry>)
    ensures OpenCalls(a + b) == OpenCalls(a) + OpenCalls(b)
  {
    if a == [] {
      assert a + b == b;
    } else {
      OpenCallsAppend(a[1..], b);
      assert (a + b)[1..] == a[1..] + b && (a + b)[0] == a[0];
      Assoc(if IsOpenCall(a[0]) then [a[0]] else [], OpenCalls(a[1..]), OpenCalls(b));
    }
  }

  lemma {:induction false} NoOpenCalls(es: seq<Entry>)
    requires forall i :: 0 <= i < |es| ==> !IsOpenCall(es[i])
    ensures OpenCalls(es) == []
  {
    if es != [] {
      NoOpenCalls(es[1..]);
    }
  }

  lemma PickOrder(queue: seq<Entry>, fibers: map<nat, FiberState>, tid: int, k: nat)
    requires k == FirstEligible(queue, fibers, tid, 0) < |queue|
    ensures multiset(queue) == multiset(Remove(queue, k)) + multiset{queue[k]}
    ensures OpenCalls(queue) == OpenCalls([queue[k]]) + OpenCalls(Remove(queue, k))
  {
    hide OpenCalls, FirstEligible;
    forall i | 0 <= i < k ensures !IsOpenCall(queue[..k][i]) {
      assert !Eligible(queue[i], fibers, tid);
    }
    RemoveOrder(queue, k);
  }

  lemma RemoveOrder(queue: seq<Entry>, k: nat)
    requires k < |queue| && forall i :: 0 <= i < k ==> !IsOpenCall(queue[..k][i])
    ensures multiset(queue) == multiset(Remove(queue, k)) + multiset{queue[k]}
    ensures OpenCalls(queue) == OpenCalls([queue[k]]) + OpenCalls(Remove(queue, k))
  {
    hide OpenCalls, IsOpenCall;
    var e, front, back := queue[k], queue[..k], queue[k + 1..];
    assert queue == front + ([e] + back);
    assert multiset(front + ([e] + back)) == multiset(front + back) + multiset{e};
    OpenCallsAppend(front, [e] + back);
    OpenCallsAppend([e], back);
    OpenCallsAppend(front, back);
    NoOpenCalls(front);
    assert [] + OpenCalls(back) == OpenCalls(back);
    assert [] + (OpenCalls([e]) + OpenCalls(back)) == OpenCalls([e]) + OpenCalls(back);
  }

  /** A step leaves the tasks alone, adds one at the end, or takes the first eligible one. */
  datatype Effect = Alone | Added(e: Entry) | Took(k: nat)

  lemma StepTasks(s: State, a: Action) returns (x: Effect)
    requires Enabled(s, a)
    ensures var s' := Next(s, a);
            match x
            case Alone => s'.queue == s.queue && s'.log == s.log && s'.taken == s.taken
            case Added(e) => s'.queue == s.queue + [e] && s'.log == s.log + [e] && s'.taken == s.taken
            case Took(k) =>
              && a.Pick? && a.w < |s.workers|
              && k == FirstEligible(s.queue, s.fibers, s.workers[a.w].tid, 0) < |s.queue|
              && s'.queue == Remove(s.queue, k) && s'.log == s.log && s'.taken == s.taken + [s.queue[k]]
  {
    match a
    case Schedule(cb, thread) => x := Added(Entry(CallTask(cb), thread));
    case Spawn(f, thread) => x := Added(Entry(FiberTask(f), thread));
    case Wake(f) => x := Added(Entry(FiberTask(f), -1));
    case Settle(w) => x := if s.fibers[s.workers[w].pc.f] == READY then Added(Entry(FiberTask(s.workers[w].pc.f), -1))
        else Alone;
    case Pick(w) =>
      var k := FirstEligible(s.queue, s.fibers, s.workers[w].tid, 0);
      x := if k < |s.queue| then Took(k) else Alone;
    case _ => x := Alone;
  }

  lemma TasksKept(s: State, a: Action)
    requires Conserved(s) && InOrder(s)
    ensures Conserved(Step(s, a)) && InOrder(Step(s, a))
  {
    hide Next, Enabled, OpenCalls, FirstEligible, Remove;
    if Enabled(s, a) {
      var x := StepTasks(s, a);
      match x
      case Alone =>
      case Added(e) =>
        OpenCallsAppend(s.log, [e]);
        OpenCallsAppend(s.queue, [e]);
        Assoc(OpenCalls(s.taken), OpenCalls(s.queue), OpenCalls([e]));
        assert multiset(s.log + [e]) == multiset(s.queue + [e]) + multiset(s.taken);
      case Took(k) =>
        PickOrder(s.queue, s.fibers, s.workers[a.w].tid, k);
        var e := s.queue[k];
        OpenCallsAppend(s.taken, [e]);
        Assoc(OpenCalls(s.taken), OpenCalls([e]), OpenCalls(Remove(s.queue, k)));
        assert multiset(s.taken + [e]) == multiset(s.taken) + multiset{e};
    }
  }

  lemma Assoc(a: seq<Entry>, b: seq<Entry>, c: seq<Entry>)
    ensures a + b + c == a + (b + c)
  {}

  // ----- pinned tasks

  predicate MayRun(e: Entry, tid: int)
  {
    e.thread == -1 || e.thread == tid
  }

  /** A task picked or swapped in by a worker is one for its thread. */
  predicate Pinned(x: Worker)
  {
    x.pc.Picked? || x.pc.Running? ==> MayRun(x.pc.e, x.tid)
  }

  /** While a worker is busy with its callback fiber it still holds it. */
  predicate OwnHeld(x: Worker)
  {
    (x.pc.Running? || x.pc.Yielded? || x.pc.Settling?) && x.pc.own ==> x.cbFiber == Some(x.pc.f)
  }

  predicate WorkersOk(s: State)
  {
    forall w :: 0 <= w < |s.workers| ==> Pinned(s.workers[w]) && OwnHeld(s.workers[w])
  }

  lemma MoverOk(s: State, a: Action)
    requires Enabled(s, a) && Mover(a) < |s.workers| && Pinned(s.workers[Mover(a)]) && OwnHeld(s.workers[Mover(a)])
    ensures |Next(s, a).workers| == |s.workers|
    ensures Pinned(Next(s, a).workers[Mover(a)]) && OwnHeld(Next(s, a).workers[Mover(a)])
  {
    hide PickStep, StartStep, SettleStep;
    match a
    case Pick(w) => PickOk(s, w);
    case Start(w, spare) => StartOk(s, w, spare);
    case Settle(w) => SettleMoves(s, w);
    case _ =>
  }

  lemma PickOk(s: State, w: nat)
    requires Enabled(s, Pick(w)) && Pinned(s.workers[w]) && OwnHeld(s.workers[w])
    ensures var t := PickStep(s, w); |t.workers| == |s.workers| && Pinned(t.workers[w]) && OwnHeld(t.workers[w])
  {}

  lemma StartOk(s: State, w: nat, spare: nat)
    requires Enabled(s, Start(w, spare)) && Pinned(s.workers[w])
    ensures var t := StartStep(s, w, spare); |t.workers| == |s.workers| && Pinned(t.workers[w]) && OwnHeld(t.workers[w])
  {}

  lemma WorkersKept(s: State, a: Action)
    requires WorkersOk(s)
    ensures WorkersOk(Step(s, a))
  {
    hide Next, Enabled, Pinned, OwnHeld;
    if Enabled(s, a) {
      StepWorkers(s, a);
      if Mover(a) < |s.workers| {
        MoverOk(s, a);
      }
    }
  }

  // ----- who accounts for a fiber that is not parked

  predicate PickedBy(s: State, w: nat, f: nat)
  {
    w < |s.workers| && s.workers[w].pc.Picked? && s.workers[w].pc.e.task == FiberTask(f)
  }

  predicate RunBy(s: State, w: nat, f: nat)
  {
    w < |s.workers| && s.workers[w].pc.Running? && s.workers[w].pc.f == f
  }

  predicate SwappedOutBy(s: State, w: nat, f: nat)
  {
    w < |s.workers| && (s.workers[w].pc.Yielded? || s.workers[w].pc.Settling?) && s.workers[w].pc.f == f
  }

  predicate SpareOf(s: State, w: nat, f: nat)
  {
    w < |s.workers| && s.workers[w].cbFiber == Some(f)
  }

  ghost predicate Accounted(s: State, f: nat)
    requires f in s.fibers
  {
    match s.fibers[f]
    case EXEC => exists w :: RunBy(s, w, f)
    case READY => Queued(s, f) || (exists w :: PickedBy(s, w, f)) || (exists w :: SwappedOutBy(s, w, f))
    case INIT => Queued(s, f) || (exists w :: PickedBy(s, w, f)) || (exists w :: SpareOf(s, w, f))
    case _ => true
  }

  ghost predicate AllAccounted(s: State)
  {
    forall f :: f in s.fibers ==> Accounted(s, f)
  }

  /** A fiber the step does not touch stays accounted for if worker `w` alone moves and keeps what it held of it. */
  lemma Carry(s: State, s': State, w: nat, f: nat)
    requires f in s.fibers && f in s'.fibers && s'.fibers[f] == s.fibers[f] && Accounted(s, f)
    requires w < |s.workers| && |s'.workers| == |s.workers| && s'.workers == s.workers[w := s'.workers[w]]
    requires Queued(s, f) ==> Queued(s', f) || PickedBy(s', w, f)
    requires s.fibers[f] == EXEC && RunBy(s, w, f) ==> RunBy(s', w, f)
    requires (s.fibers[f] == READY || s.fibers[f] == INIT) && PickedBy(s, w, f) ==> PickedBy(s', w, f)
    requires s.fibers[f] == READY && SwappedOutBy(s, w, f) ==> SwappedOutBy(s', w, f) || Queued(s', f)
    requires s.fibers[f] == INIT && SpareOf(s, w, f) ==> SpareOf(s', w, f)
    ensures Accounted(s', f)
  {
    hide Queued;
    if s.fibers[f] == EXEC {
      var v :| RunBy(s, v, f);
      assert RunBy(s', v, f);
    } else if (s.fibers[f] == READY || s.fibers[f] == INIT) && !Queued(s, f) {
      if v :| PickedBy(s, v, f) {
        assert PickedBy(s', v, f);
      } else if s.fibers[f] == READY {
        var v :| SwappedOutBy(s, v, f);
        assert v == w || SwappedOutBy(s', v, f);
      } else {
        var v :| SpareOf(s, v, f);
        assert SpareOf(s', v, f);
      }
    }
  }

  lemma QueuedAppend(s: State, s': State, e: Entry, f: nat)
    requires s'.queue == s.queue + [e]
    ensures Queued(s', f) <==> Queued(s, f) || e.task == FiberTask(f)
  {
    if Queued(s, f) {
      var i :| 0 <= i < |s.queue| && s.queue[i].task == FiberTask(f);
      assert s'.queue[i].task == FiberTask(f);
    }
    if e.task == FiberTask(f) {
      assert s'.queue[|s.queue|].task == FiberTask(f);
    }
  }

  /** Steps that only add a task. */
  lemma AddedAccounted(s: State, s': State, e: Entry)
    requires AllAccounted(s) && s'.workers == s.workers && s'.queue == s.queue + [e]
    requires s'.fibers == s.fibers || (e.task.FiberTask? && s'.fibers == s.fibers[e.task.fiber := INIT])
    ensures AllAccounted(s')
  {
    forall f | f in s'.fibers ensures Accounted(s', f) {
      QueuedAppend(s, s', e, f);
      if f in s.fibers && s'.fibers[f] == s.fibers[f] {
        assert Accounted(s, f);
        if v :| PickedBy(s, v, f) { assert PickedBy(s', v, f); }
        if v :| SwappedOutBy(s, v, f) { assert SwappedOutBy(s', v, f); }
        if v :| SpareOf(s, v, f) { assert SpareOf(s', v, f); }
        if v :| RunBy(s, v, f) { assert RunBy(s', v, f); }
      }
    }
  }

  lemma PickAccounted(s: State, w: nat)
    requires AllAccounted(s) && Enabled(s, Pick(w))
    ensures AllAccounted(PickStep(s, w))
  {
    hide FirstEligible;
    var s' := PickStep(s, w);
    var k := FirstEligible(s.queue, s.fibers, s.workers[w].tid, 0);
    if k < |s.queue| {
      forall f | f in s'.fibers ensures Accounted(s', f) {
        assert Accounted(s, f);
        if Queued(s, f) {
          var i :| 0 <= i < |s.queue| && s.queue[i].task == FiberTask(f);
          if i != k {
            var i' := if i < k then i else i - 1;
            assert s'.queue[i'].task == FiberTask(f);
          }
        }
        Carry(s, s', w, f);
      }
    }
  }

  /** Steps that move one worker and leave the queue alone. */
  lemma MovedAccounted(s: State, s': State, w: nat, g: nat)
    requires AllAccounted(s) && w < |s.workers| == |s'.workers| && s'.workers == s.workers[w := s'.workers[w]]
    requires s'.queue == s.queue && g in s'.fibers && s'.fibers == s.fibers[g := s'.fibers[g]]
    requires Accounted(s', g)
    requires forall f :: f in s.fibers && f != g ==> !RunBy(s, w, f) && !SwappedOutBy(s, w, f) && !PickedBy(s, w, f)
    requires forall f :: f in s.fibers && f != g && SpareOf(s, w, f) ==> SpareOf(s', w, f)
    ensures AllAccounted(s')
  {
    forall f | f in s'.fibers ensures Accounted(s', f) {
      if f != g {
        assert Accounted(s, f);
        Carry(s, s', w, f);
      }
    }
  }

  lemma StartAccounted(s: State, w: nat, spare: nat)
    requires AllAccounted(s) && Enabled(s, Start(w, spare))
    ensures AllAccounted(StartStep(s, w, spare))
  {
    var s' := StartStep(s, w, spare);
    var g := match s.workers[w].pc.e.task
             case FiberTask(f) => f
             case CallTask(_) => if s.workers[w].cbFiber.Some? then s.workers[w].cbFiber.value else spare;
    if s'.workers[w].pc.Running? {
      assert RunBy(s', w, g);
    }
    MovedAccounted(s, s', w, g);
  }

  lemma SettleAccounted(s: State, w: nat)
    requires AllAccounted(s) && WorkersOk(s) && Enabled(s, Settle(w))
    ensures AllAccounted(SettleStep(s, w))
  {
    var g, st := s.workers[w].pc.f, s.fibers[s.workers[w].pc.f];
    var s' := SettleStep(s, w);
    assert OwnHeld(s.workers[w]);
    if st == READY {
      forall f | f in s'.fibers ensures Accounted(s', f) {
        QueuedAppend(s, s', Entry(FiberTask(g), -1), f);
        if f != g {
          assert Accounted(s, f);
          Carry(s, s', w, f);
        }
      }
    } else {
      if st == TERM || st == EXCEPT {
        assert s.workers[w].pc.own ==> SpareOf(s', w, g);
      }
      MovedAccounted(s, s', w, g);
    }
  }

  lemma AccountedKept(s: State, a: Action)
    requires AllAccounted(s) && WorkersOk(s)
    ensures AllAccounted(Step(s, a))
  {
    if Enabled(s, a) {
      match a
      case Schedule(cb, thread) => AddedAccounted(s, Next(s, a), Entry(CallTask(cb), thread));
      case Spawn(f, thread) => AddedAccounted(s, Next(s, a), Entry(FiberTask(f), thread));
      case Wake(f) => AddedAccounted(s, Next(s, a), Entry(FiberTask(f), -1));
      case Pick(w) => PickAccounted(s, w);
      case Start(w, spare) => StartAccounted(s, w, spare);
      case Settle(w) => SettleAccounted(s, w);
      case YieldWrite(w, st) => YieldAccounted(s, w, st);
      case Decrement(w) => QuietAccounted(s, Next(s, a), w);
      case GoIdle(w) => QuietAccounted(s, Next(s, a), w);
      case LeaveIdle(w) => QuietAccounted(s, Next(s, a), w);
      case Exit(w) => QuietAccounted(s, Next(s, a), w);
      case _ => SameAccounted(s, Next(s, a));
    }
  }

  lemma YieldAccounted(s: State, w: nat, st: FiberState)
    requires AllAccounted(s) && Enabled(s, YieldWrite(w, st))
    ensures AllAccounted(Next(s, YieldWrite(w, st)))
  {
    var s', g := Next(s, YieldWrite(w, st)), s.workers[w].pc.f;
    assert SwappedOutBy(s', w, g);
    MovedAccounted(s, s', w, g);
  }

  /** A worker that moves without letting go of a fiber. */
  lemma QuietAccounted(s: State, s': State, w: nat)
    requires AllAccounted(s) && w < |s.workers| == |s'.workers| && s'.workers == s.workers[w := s'.workers[w]]
    requires s'.queue == s.queue && s'.fibers == s.fibers && s'.workers[w].cbFiber == s.workers[w].cbFiber
    requires !s.workers[w].pc.Picked? && !s.workers[w].pc.Running?
    requires forall f :: SwappedOutBy(s, w, f) ==> SwappedOutBy(s', w, f)
    ensures AllAccounted(s')
  {
    forall f | f in s'.fibers ensures Accounted(s', f) {
      assert Accounted(s, f);
      Carry(s, s', w, f);
    }
  }

  lemma SameAccounted(s: State, s': State)
    requires AllAccounted(s) && s'.workers == s.workers && s'.queue == s.queue && s'.fibers == s.fibers
    ensures AllAccounted(s')
  {
    forall f | f in s'.fibers ensures Accounted(s', f) {
      assert Accounted(s, f);
      if v :| PickedBy(s, v, f) { assert PickedBy(s', v, f); }
      if v :| SwappedOutBy(s, v, f) { assert SwappedOutBy(s', v, f); }
      if v :| SpareOf(s, v, f) { assert SpareOf(s', v, f); }
      if v :| RunBy(s, v, f) { assert RunBy(s', v, f); }
    }
  }

  // ----- all runs

  ghost predicate FineInv(s: State)
  {
    Counted(s) && Conserved(s) && InOrder(s) && WorkersOk(s) && AllAccounted(s)
  }

  lemma StepKeeps(s: State, a: Action)
    requires FineInv(s)
    ensures FineInv(Step(s, a))
  {
    hide Counted, Conserved, InOrder, WorkersOk, AllAccounted, Step;
    CountsKept(s, a);
    TasksKept(s, a);
    WorkersKept(s, a);
    AccountedKept(s, a);
  }

  /** The counters are exact, tasks are neither lost nor duplicated, and no fiber is forgotten, in every run. */
  lemma {:induction false} RunKeeps(s: State, acts: seq<Action>)
    requires FineInv(s)
    ensures FineInv(Run(s, acts))
    decreases |acts|
  {
    hide FineInv, Step;
    if acts != [] {
      StepKeeps(s, acts[0]);
      RunKeeps(Step(s, acts[0]), acts[1..]);
    }
  }

  lemma {:induction false} FreshCounts(ws: seq<Worker>)
    requires forall w :: 0 <= w < |ws| ==> ws[w].pc == Scan
    ensures Active(ws) == 0 && Idle(ws) == 0
  {
    if ws != [] {
      FreshCounts(ws[1..]);
    }
  }

  lemma FreshIsGood(s: State)
    requires Fresh(s)
    ensures FineInv(s)
  {
    FreshCounts(s.workers);
  }

  predicate SettledBy(s: State, w: nat, f: nat)
  {
    w < |s.workers| && s.workers[w].pc.Settling? && s.workers[w].pc.f == f
  }

  /**
    When the scheduler says it may stop, nothing executes, and a fiber is parked, or finished, or a worker's spare
    callback fiber, or a ready one that its own worker is about to put back.
   */
  lemma StopIsSound(s: State, f: nat)
    requires FineInv(s) && Stopping(s) && f in s.fibers
    ensures forall w :: 0 <= w < |s.workers| ==> !IsActive(s.workers[w].pc)
    ensures s.fibers[f] != EXEC
    ensures s.fibers[f] == READY ==> exists w: nat :: SettledBy(s, w, f)
    ensures s.fibers[f] == INIT ==> exists w: nat :: SpareOf(s, w, f)
  {
    NoneActive(s.workers);
    assert Accounted(s, f);
    if s.fibers[f] == READY {
      var w: nat :| SwappedOutBy(s, w, f);
      assert SettledBy(s, w, f);
    }
  }
}
