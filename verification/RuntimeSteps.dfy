/** Every step of the composed runtime keeps its invariant. */
module RuntimeSteps {
  import opened Options
  import opened Tasks
  import Sched
  import opened SchedCounts
  import opened SchedApart
  import opened SchedSingle
  import opened Flight
  import Timers
  import Events
  import opened Runtime
  import opened RuntimeInv

  // ----- steps of the scheduler alone

  /** A worker runs after the step what it ran before, or something nobody waits for. */
  ghost predicate RunsOn(s: Sched.State, t: Sched.State, w: nat)
    requires w < |t.workers| == |s.workers|
  {
    var x, y := s.workers[w].pc, t.workers[w].pc;
    y.Running? ==>
      || (y == x && (Sched.Queued(t, y.f) ==> Sched.Queued(s, y.f)))
      || (y.f !in t.armed && !Sched.Queued(t, y.f)
        && (y.e.task.CallTask? ==> y.f !in s.fibers || s.fibers[y.f] == Sched.INIT))
  }

  ghost predicate Calm(s: Sched.State, t: Sched.State)
  {
    && |t.workers| == |s.workers| && t.armed == s.armed && t.wakes == s.wakes && s.dropped <= t.dropped
    && (forall f :: f in s.fibers && Blocked(s.fibers[f]) ==> f in t.fibers && Blocked(t.fibers[f]))
    && (forall w :: 0 <= w < |t.workers| ==> RunsOn(s, t, w))
  }

  lemma CalmMove(s: State, s': State, out: set<nat>)
    requires InvBut(s, out) && s' == s.(sched := s'.sched, hands := s'.hands)
    requires SchedOk(s'.sched) && Calm(s.sched, s'.sched)
    requires forall cb: Callback :: !cb.User? ==> InFlight(s', cb) == InFlight(s, cb)
    ensures InvBut(s', out)
  {
    hide SchedOk, Timers.Inv, Events.Inv, InFlight, Sched.Queued;
    var t := s'.sched;
    forall w | 0 <= w < |t.workers| ensures RunAt(s', w) {
      assert RunAt(s, w) && RunsOn(s.sched, t, w);
      if t.workers[w].pc.Running? && t.workers[w].pc.f in s.prog {
        assert ProgAt(s, t.workers[w].pc.f);
      }
    }
    forall f | f in s.prog ensures f in t.fibers && Blocked(t.fibers[f]) {
      assert ProgAt(s, f);
    }
    SchedMove(s, s', out, {});
    assert out + {} == out;
  }

  lemma PickCalm(s: Sched.State, w: nat)
    requires Sched.Enabled(s, Sched.Pick(w))
    ensures Calm(s, Sched.Next(s, Sched.Pick(w)))
  {
    hide Sched.Queued;
    var t := Sched.Next(s, Sched.Pick(w));
    var k := Sched.FirstEligible(s.queue, s.fibers, s.workers[w].tid, 0);
    forall v | 0 <= v < |t.workers| ensures RunsOn(s, t, v) {
      if t.workers[v].pc.Running? && k < |s.queue| {
        StillQueued(s, t, k, t.workers[v].pc.f);
      }
    }
  }

  lemma StillQueued(s: Sched.State, t: Sched.State, k: nat, f: nat)
    requires k < |s.queue| && t.queue == Sched.Remove(s.queue, k)
    ensures Sched.Queued(t, f) ==> Sched.Queued(s, f)
  {
    if Sched.Queued(t, f) {
      var i :| 0 <= i < |t.queue| && t.queue[i].task == FiberTask(f);
      assert s.queue[if i < k then i else i + 1].task == t.queue[i].task;
    }
  }

  lemma StartCalm(s: Sched.State, w: nat, spare: nat)
    requires ApartInv(s) && Sched.Enabled(s, Sched.Start(w, spare))
    ensures Calm(s, Sched.Next(s, Sched.Start(w, spare)))
  {
    var t, x := Sched.Next(s, Sched.Start(w, spare)), s.workers[w];
    assert WorkerOk(s, x);
    assert t.queue == s.queue;
    forall v | 0 <= v < |t.workers| ensures RunsOn(s, t, v) {
      if v == w && t.workers[w].pc.Running? {
        var f := t.workers[w].pc.f;
        assert f !in s.armed;
        NotQueued(s, w, f);
        SameQueue(s, t, f);
      }
    }
  }

  lemma EnqueueCalm(s: Sched.State, e: Sched.Entry, t: Sched.State)
    requires ApartInv(s) && (e.task.FiberTask? ==> e.task.fiber !in s.fibers)
    requires t.queue == s.queue + [e] && t.workers == s.workers && t.armed == s.armed && t.wakes == s.wakes
        && t.dropped == s.dropped
    requires forall f :: f in s.fibers ==> f in t.fibers && t.fibers[f] == s.fibers[f]
    ensures Calm(s, t)
  {
    forall v | 0 <= v < |t.workers| ensures RunsOn(s, t, v) {
      assert WorkerOk(s, s.workers[v]);
      if t.workers[v].pc.Running? {
        QueuedAppend(s, t, e, t.workers[v].pc.f);
      }
    }
  }

  lemma QuietCalm(s: Sched.State, t: Sched.State, w: nat)
    requires w < |s.workers| == |t.workers| && t.workers == s.workers[w := t.workers[w]] && !t.workers[w].pc.Running?
    requires t.queue == s.queue && t.fibers == s.fibers && t.armed == s.armed && t.wakes == s.wakes
        && t.dropped == s.dropped
    ensures Calm(s, t)
  {
    forall v | 0 <= v < |t.workers| ensures RunsOn(s, t, v) {
      if t.workers[v].pc.Running? {
        SameQueue(s, t, t.workers[v].pc.f);
      }
    }
  }

  lemma SettleCalm(s: Sched.State, w: nat)
    requires ApartInv(s) && Sched.Enabled(s, Sched.Settle(w))
    ensures Calm(s, Sched.Next(s, Sched.Settle(w)))
  {
    hide Sched.Next, Sched.Queued;
    var t, f := Sched.Next(s, Sched.Settle(w)), s.workers[w].pc.f;
    assert WorkerOk(s, s.workers[w]);
    SettleEffect(s, w);
    InHandOnly(s, w, f);
    forall v | 0 <= v < |t.workers| ensures RunsOn(s, t, v) {
      if v != w && t.workers[v].pc.Running? {
        assert InHand(s.workers[v]) != Some(f);
        if s.fibers[f] == Sched.READY {
          QueuedAppend(s, t, Sched.Entry(FiberTask(f), -1), t.workers[v].pc.f);
        } else {
          SameQueue(s, t, t.workers[v].pc.f);
        }
      }
    }
  }

  lemma StopCalm(s: Sched.State)
    ensures Calm(s, Sched.Next(s, Sched.Stop))
  {
    var t := Sched.Next(s, Sched.Stop);
    forall v | 0 <= v < |t.workers| ensures RunsOn(s, t, v) {
      if t.workers[v].pc.Running? {
        SameQueue(s, t, t.workers[v].pc.f);
      }
    }
  }

  lemma ActionCalm(s: Sched.State, a: Sched.Action)
    requires ApartInv(s) && IsInternal(a) && Sched.Enabled(s, a)
    ensures Calm(s, Sched.Next(s, a))
  {
    hide Calm, ApartInv;
    var t := Sched.Next(s, a);
    match a
    case Pick(w) => PickCalm(s, w);
    case Start(w, spare) => StartCalm(s, w, spare);
    case Decrement(w) => QuietCalm(s, t, w);
    case Settle(w) => SettleCalm(s, w);
    case Spawn(f, thread) => EnqueueCalm(s, Sched.Entry(FiberTask(f), thread), t);
    case Schedule(cb, thread) => EnqueueCalm(s, Sched.Entry(CallTask(cb), thread), t);
    case GoIdle(w) => QuietCalm(s, t, w);
    case LeaveIdle(w) => QuietCalm(s, t, w);
    case Exit(w) => QuietCalm(s, t, w);
    case Stop => StopCalm(s);
  }

  lemma InternalKeeps(s: State, a: Sched.Action)
    requires Inv(s) && IsInternal(a) && Sched.Enabled(s.sched, a) && !TakesTooEarly(s.sched, a)
    ensures Inv(s.(sched := Sched.Next(s.sched, a)))
  {
    hide Calm, Sched.Next, Sched.Enabled, TakesTooEarly, ApartInv, ParkedOk, FineInv, Timers.Inv, Events.Inv, Flying;
    SchedKept(s.sched, a);
    ActionCalm(s.sched, a);
    forall cb: Callback | !cb.User? ensures Flying(Sched.Next(s.sched, a), cb) == Flying(s.sched, cb) {
      if a.Schedule? {
        ScheduleFlies(s.sched, a.cb, a.thread, cb);
      } else {
        FlyingKept(s.sched, a, cb);
      }
    }
    CalmMove(s, s.(sched := Sched.Next(s.sched, a)), {});
  }

  lemma ScheduleFlies(s: Sched.State, cb: Callback, thread: int, x: Callback)
    ensures Flying(Sched.Next(s, Sched.Schedule(cb, thread)), x) == Flying(s, x) + (if x == cb then 1 else 0)
  {
    CallsAppend(s.queue, Sched.Entry(CallTask(cb), thread), x);
  }

  // ----- a fiber gives its worker back

  /** A fiber outside the hooks, or on its way to be parked, may yield. */
  lemma MayYield(s: State, w: nat, st: Sched.FiberState)
    requires Inv(s) && w < |s.sched.workers| && s.sched.workers[w].pc.Running? && Sched.InSwap(st)
    requires st == Sched.HOLD || s.sched.workers[w].pc.f !in s.prog
    ensures Disciplined(s.sched, Sched.YieldWrite(w, st))
  {
    assert RunAt(s, w);
  }

  lemma YieldCalm(s: Sched.State, w: nat, st: Sched.FiberState)
    requires SchedOk(s) && Sched.Enabled(s, Sched.YieldWrite(w, st)) && Disciplined(s, Sched.YieldWrite(w, st))
    ensures var t, f := Sched.YieldStep(s, w, st), s.workers[w].pc.f;
            && SchedOk(t) && |t.workers| == |s.workers| && t.armed == s.armed && t.wakes == s.wakes
            && s.dropped <= t.dropped && t.queue == s.queue && !t.workers[w].pc.Running?
            && t.fibers == s.fibers[f := st] && f in s.fibers
            && (forall v :: 0 <= v < |t.workers| && v != w ==> t.workers[v] == s.workers[v])
  {
    hide SchedOk, Sched.Queued;
    SchedKept(s, Sched.YieldWrite(w, st));
    RunFacts(s, w);
  }

  /** What a callback still in a worker's hands was, if that worker yields. */
  function Lost(x: Sched.Worker): set<nat>
  {
    if x.pc.Running? && x.pc.e.task.CallTask? && x.pc.e.task.cb.WakeFiber? then {x.pc.e.task.cb.fiber} else {}
  }

  lemma YieldMoves(s: State, w: nat, st: Sched.FiberState)
    requires Inv(s) && w < |s.sched.workers| && s.sched.workers[w].pc.Running? && Sched.InSwap(st)
    requires st == Sched.HOLD || s.sched.workers[w].pc.f !in s.prog
    ensures InvBut(s.(sched := Sched.YieldStep(s.sched, w, st)), Lost(s.sched.workers[w]))
  {
    hide Sched.YieldStep, SchedOk, Sched.Queued, Timers.Inv, Events.Inv, Flying;
    MayYield(s, w, st);
    YieldCalm(s.sched, w, st);
    var t := Sched.YieldStep(s.sched, w, st);
    forall cb ensures Flying(t, cb) == Flying(s.sched, cb) - Holds(s.sched.workers[w], cb) {
      FlyingYield(s.sched, w, st, cb);
    }
    forall f | f in s.prog ensures f in t.fibers && Blocked(t.fibers[f]) {
      assert ProgAt(s, f);
    }
    forall v | 0 <= v < |t.workers| ensures RunAt(s.(sched := t), v) {
      assert RunAt(s, v);
      if t.workers[v].pc.Running? {
        SameQueue(s.sched, t, t.workers[v].pc.f);
      }
    }
    SchedMove(s, s.(sched := t), {}, Lost(s.sched.workers[w]));
    assert {} + Lost(s.sched.workers[w]) == Lost(s.sched.workers[w]);
  }

  lemma YieldKeeps(s: State, w: nat, st: Sched.FiberState)
    requires Inv(s) && Outside(s, w) && Sched.InSwap(st)
    ensures Inv(s.(sched := Sched.YieldStep(s.sched, w, st)))
  {
    YieldMoves(s, w, st);
  }

  lemma ParkKeeps(s: State, w: nat)
    requires Inv(s) && InHook(s, w, Yielding)
    ensures Inv(Goto(s.(sched := Sched.YieldStep(s.sched, w, Sched.HOLD)), s.sched.workers[w].pc.f, Parked))
  {
    hide Sched.YieldStep, SchedOk, Sched.Queued, Timers.Inv, Events.Inv, Flying;
    var f := s.sched.workers[w].pc.f;
    MayYield(s, w, Sched.HOLD);
    YieldMoves(s, w, Sched.HOLD);
    YieldCalm(s.sched, w, Sched.HOLD);
    RunFacts(s.sched, w);
    ParkedKeeps(s.(sched := Sched.YieldStep(s.sched, w, Sched.HOLD)), f);
  }

  lemma ParkedKeeps(s: State, f: nat)
    requires Inv(s) && f in s.prog && s.prog[f].at == Yielding
    requires forall w :: 0 <= w < |s.sched.workers| && s.sched.workers[w].pc.Running? ==> s.sched.workers[w].pc.f != f
    ensures Inv(Goto(s, f, Parked))
  {
    hide SchedOk, Sched.Queued, Timers.Inv, Events.Inv, SlotAt, PendAt, FlyAt, SourceAt, WakeAt;
    assert ProgAt(s, f);
    var s' := Goto(s, f, Parked);
    forall w | 0 <= w < |s'.sched.workers| ensures RunAt(s', w) {
      assert RunAt(s, w);
    }
    Touch(s, s', f);
  }

  // ----- a call goes on

  /** A fiber between its yields is waited for by nobody. */
  lemma AtEase(s: State, w: nat)
    requires Inv(s) && InCode(s, w)
    requires !InHook(s, w, Yielding)
    ensures s.sched.workers[w].pc.f !in s.sched.armed && !Sched.Queued(s.sched, s.sched.workers[w].pc.f)
    ensures s.sched.workers[w].pc.f in s.sched.fibers && s.sched.fibers[s.sched.workers[w].pc.f] == Sched.EXEC
  {
    assert RunAt(s, w);
    RunFacts(s.sched, w);
  }

  lemma BeginIoKeeps(s: State, w: nat, c: Call)
    requires Inv(s) && Outside(s, w) && c == Call(s.infos, c.fd, c.ev, c.timeout, None, None, None, false, c.connect)
    ensures Inv(s.(prog := s.prog[s.sched.workers[w].pc.f := Io(c, Try)], infos := s.infos + 1))
  {
    hide InvBut, Sched.Queued;
    AtEase(s, w);
    ProgMove(s, s.(prog := s.prog[s.sched.workers[w].pc.f := Io(c, Try)], infos := s.infos + 1), w, Some(Io(c, Try)));
  }

  lemma LeaveKeeps(s: State, w: nat)
    requires Inv(s) && InCode(s, w) && !InHook(s, w, Yielding)
    ensures Inv(Leave(s, s.sched.workers[w].pc.f))
  {
    hide InvBut, Sched.Queued;
    AtEase(s, w);
    ProgMove(s, Leave(s, s.sched.workers[w].pc.f), w, None);
  }

  lemma GotoKeeps(s: State, w: nat, at: Stage, to: Stage)
    requires Inv(s) && InIo(s, w, at) && at != Yielding && to != Yielding && to != Parked
    ensures Inv(Goto(s, s.sched.workers[w].pc.f, to))
  {
    hide SchedOk, Timers.Inv, Events.Inv, SlotAt, PendAt, FlyAt, SourceAt, WakeAt, RunAt, Sched.Queued;
    var f := s.sched.workers[w].pc.f;
    AtEase(s, w);
    assert ProgAt(s, f);
    ProgMove(s, Goto(s, f, to), w, Some(Io(s.prog[f].call, to)));
  }

  lemma CancelMaybeKeeps(s: State, f: nat)
    requires Inv(s) && f in s.prog && s.prog[f].Io?
    ensures Sound(s) && Inv(s.(timers := CancelMaybe(s.timers, s.prog[f].call.timer)))
  {
    hide SchedOk, Events.Inv, SlotAt, PendAt, FlyAt, SourceAt, WakeAt, RunAt, Timers.Cancel;
    InvIsSound(s, {});
    var id := s.prog[f].call.timer;
    if id.Some? {
      assert ProgAt(s, f);
      Timers.CancelKeeps(s.timers, id.value);
      TimersMove(s, CancelMaybe(s.timers, id));
    }
  }
}
