/** Timer callbacks, expiry, and whole runs of the composed runtime. */
module RuntimeRuns {
  import opened Options
  import opened Tasks
  import Sched
  import opened Flight
  import Timers
  import Events
  import opened Runtime
  import opened RuntimeInv
  import opened RuntimeSteps
  import opened RuntimeWaits

  // ----- a timer callback runs

  /** Scheduling somebody and swapping out can be exchanged. */
  lemma GiveYield(s: Sched.State, t: Task, w: nat)
    requires Sched.Enabled(s, Sched.YieldWrite(w, Sched.TERM))
    ensures Sched.YieldStep(Give(s, t), w, Sched.TERM) == Give(Sched.YieldStep(s, w, Sched.TERM), t)
  {
    hide Sched.Queued;
  }

  lemma {:induction false} DeliverYield(s: Sched.State, tasks: seq<Task>, w: nat)
    requires Sched.Enabled(s, Sched.YieldWrite(w, Sched.TERM))
    ensures Sched.Enabled(Deliver(s, tasks), Sched.YieldWrite(w, Sched.TERM))
    ensures Sched.YieldStep(Deliver(s, tasks), w, Sched.TERM) == Deliver(Sched.YieldStep(s, w, Sched.TERM), tasks)
    decreases |tasks|
  {
    hide Sched.YieldStep;
    if tasks != [] {
      GiveYield(s, tasks[0], w);
      DeliverYield(Give(s, tasks[0]), tasks[1..], w);
    }
  }

  lemma FireYield(s: State, w: nat, cb: Callback, ok: bool)
    requires !cb.User? && Sched.Enabled(s.sched, Sched.YieldWrite(w, Sched.TERM))
    ensures var s1 := Fire(s, cb, ok);
            && Sched.Enabled(s1.sched, Sched.YieldWrite(w, Sched.TERM))
            && s1.(sched := Sched.YieldStep(s1.sched, w, Sched.TERM))
              == Fire(s.(sched := Sched.YieldStep(s.sched, w, Sched.TERM)), cb, ok)
  {
    hide Sched.YieldStep, Deliver;
    match cb
    case WakeFiber(f) => GiveYield(s.sched, FiberTask(f), w);
    case IoTimeout(f, _, fd, ev) => DeliverYield(s.sched, Events.CancelEvent(s.io, fd, ev, ok).2, w);
  }

  /** A call is marked as timed out once its time is up. */
  lemma CancelledKeeps(s: State, f: nat)
    requires Inv(s) && f in s.prog && s.prog[f].Io? && Elapsed(s.prog[f].call, s.clock)
    ensures Inv(s.(prog := s.prog[f := s.prog[f].(call := s.prog[f].call.(cancelled := true))]))
  {
    hide SchedOk, Timers.Inv, Events.Inv, SlotAt, PendAt, FlyAt, SourceAt, WakeAt, Sched.Queued;
    var s' := s.(prog := s.prog[f := s.prog[f].(call := s.prog[f].call.(cancelled := true))]);
    assert ProgAt(s, f);
    forall w | 0 <= w < |s'.sched.workers| ensures RunAt(s', w) {
      assert RunAt(s, w);
    }
    Touch(s, s', f);
  }

  /** The callback a worker runs is in flight. */
  lemma RunFlies(s: State, w: nat)
    requires Inv(s) && w < |s.sched.workers| && s.sched.workers[w].pc.Running? && s.sched.workers[w].pc.e.task.CallTask?
    ensures var cb := s.sched.workers[w].pc.e.task.cb; InFlight(s, cb) > 0 && FlyAt(s, cb)
  {
    var cb := s.sched.workers[w].pc.e.task.cb;
    HeldHas(s.sched.workers, w, cb);
    assert FlyAt(s, cb);
  }

  /** A sleeper whose callback is on its way has no other source. */
  lemma OnlyToken(s: State, f: nat)
    requires Inv(s) && InFlight(s, WakeFiber(f)) > 0
    ensures f in s.sched.armed && Waits(s.prog, f)
    ensures forall fd, e :: 0 <= fd < |s.io.ctxs| ==> s.io.ctxs[fd].Get(e).fiber != Some(f)
    ensures forall id :: id in s.timers.all ==> s.timers.all[id].cb != Some(WakeFiber(f))
  {
    hide SchedOk, Timers.Inv, Events.Inv, Flying, Sched.Queued;
    assert FlyAt(s, WakeFiber(f));
    forall fd, e | 0 <= fd < |s.io.ctxs| ensures s.io.ctxs[fd].Get(e).fiber != Some(f) {
      assert SlotAt(s, fd, e);
    }
    forall id | id in s.timers.all ensures s.timers.all[id].cb != Some(WakeFiber(f)) {
      assert PendAt(s, id);
    }
  }

  lemma SwapsOut(s: Sched.State, w: nat)
    requires Sched.Enabled(s, Sched.YieldWrite(w, Sched.TERM))
    ensures Sched.YieldStep(s, w, Sched.TERM).armed == s.armed
  {}

  lemma WakeRuns(s: State, w: nat, f: nat)
    requires Inv(s) && w < |s.sched.workers| && s.sched.workers[w].pc.Running?
    requires s.sched.workers[w].pc.e.task == CallTask(WakeFiber(f))
    ensures Inv(Fire(s.(sched := Sched.YieldStep(s.sched, w, Sched.TERM)), WakeFiber(f), true))
  {
    hide InvBut, Sched.YieldStep, Flying;
    RunFlies(s, w);
    OnlyToken(s, f);
    RunsFree(s, w);
    YieldMoves(s, w, Sched.TERM);
    FlyingYield(s.sched, w, Sched.TERM, WakeFiber(f));
    SwapsOut(s.sched, w);
    ResumeKeeps(s.(sched := Sched.YieldStep(s.sched, w, Sched.TERM)), f);
  }

  /** Timer callbacks run in fibers that are in no hook. */
  lemma RunsFree(s: State, w: nat)
    requires Inv(s) && w < |s.sched.workers| && s.sched.workers[w].pc.Running?
        && TimerTask(s.sched.workers[w].pc.e.task)
    ensures s.sched.workers[w].pc.f !in s.prog
  {
    assert RunAt(s, w);
  }

  lemma TimeoutRuns(s: State, w: nat, cb: Callback, ok: bool)
    requires Inv(s) && w < |s.sched.workers| && s.sched.workers[w].pc.Running?
    requires s.sched.workers[w].pc.e.task == CallTask(cb) && cb.IoTimeout?
    ensures Inv(Fire(s.(sched := Sched.YieldStep(s.sched, w, Sched.TERM)), cb, ok))
  {
    hide InvBut, Sched.YieldStep, Flying;
    RunFlies(s, w);
    RunsFree(s, w);
    YieldMoves(s, w, Sched.TERM);
    var s1 := s.(sched := Sched.YieldStep(s.sched, w, Sched.TERM));
    if Live(s1.prog, cb) && !s1.prog[cb.fiber].call.cancelled {
      CancelledKeeps(s1, cb.fiber);
      ReleaseKeeps(s1.(prog :=
          s1.prog[cb.fiber := s1.prog[cb.fiber].(call := s1.prog[cb.fiber].call.(cancelled := true))]),
                   cb.fd, cb.event, ok);
    }
  }

  lemma RunTimerKeeps(s: State, w: nat, ok: bool)
    requires Inv(s) && w < |s.sched.workers| && s.sched.workers[w].pc.Running?
        && TimerTask(s.sched.workers[w].pc.e.task)
    ensures Inv(TimerNext(s, w, ok))
  {
    hide InvBut, Sched.YieldStep, Release;
    var cb := s.sched.workers[w].pc.e.task.cb;
    FireYield(s, w, cb, ok);
    if cb.WakeFiber? {
      WakeRuns(s, w, cb.fiber);
    } else {
      TimeoutRuns(s, w, cb, ok);
    }
  }

  // ----- callbacks leave the timer set and reach the queue

  lemma {:induction false} CountOnce(cbs: seq<Callback>, i: nat)
    requires i < |cbs| && forall j :: 0 <= j < |cbs| && j != i ==> cbs[j] != cbs[i]
    ensures multiset(cbs)[cbs[i]] == 1
  {
    assert cbs == cbs[..i] + [cbs[i]] + cbs[i + 1..];
    assert cbs[i] !in cbs[..i] && cbs[i] !in cbs[i + 1..];
  }

  lemma CutOne(hands: seq<Callback>, i: nat, cb: Callback)
    requires i < |hands|
    ensures multiset(hands[..i] + hands[i + 1..])[cb] == multiset(hands)[cb] - (if cb == hands[i] then 1 else 0)
  {
    assert hands == hands[..i] + [hands[i]] + hands[i + 1..];
  }

  lemma HandOverKeeps(s: State, i: nat)
    requires Inv(s) && i < |s.hands|
    ensures Inv(s.(hands := s.hands[..i] + s.hands[i + 1..],
                   sched := Sched.Enqueue(s.sched, Sched.Entry(CallTask(s.hands[i]), -1))))
  {
    hide SchedOk, Events.Inv, Timers.Inv, ProgAt, SlotAt, PendAt, FlyAt, SourceAt, WakeAt, RunAt, Sched.Queued, Flying,
      Calm;
    CallCalm(s.sched, s.hands[i]);
    var s' := s.(hands := s.hands[..i] + s.hands[i + 1..],
                 sched := Sched.Enqueue(s.sched, Sched.Entry(CallTask(s.hands[i]), -1)));
    forall cb ensures InFlight(s', cb) == InFlight(s, cb) {
      CutOne(s.hands, i, cb);
      EnqueueFlies(s.sched, Sched.Entry(CallTask(s.hands[i]), -1), cb);
    }
    CalmMove(s, s', {});
  }

  lemma TimerFacts(s: State)
    requires Inv(s)
    ensures Timers.Inv(s.timers) && s.timers.previous <= s.clock
  {}

  /** A pending timer whose deadline has come. */
  predicate IsDue(s: State, id: nat)
  {
    id in s.timers.order && id in s.timers.all && s.timers.all[id].next <= s.clock
  }

  /** The callbacks are those of `due`, one for one. */
  predicate CallbacksOf(s: State, due: seq<nat>, cbs: seq<Callback>)
  {
    |cbs| == |due| && forall i :: 0 <= i < |due| ==> IsDue(s, due[i]) && s.timers.all[due[i]].cb == Some(cbs[i])
  }

  /** The expiry as the timers give it, for a clock that does not go back. */
  lemma ExpiredDue(s: State, probe: nat) returns (due: seq<nat>)
    requires Inv(s)
    ensures var (t, cbs) := Timers.ListExpired(s.timers, s.clock, probe);
            && Timers.Inv(t) && t.previous <= s.clock && t.all.Keys == s.timers.all.Keys
            && (forall id :: id in s.timers.all ==>
                  t.all[id] == if IsDue(s, id) then Timers.Settled(s.timers.all[id], s.clock) else s.timers.all[id])
            && CallbacksOf(s, due, cbs)
            && (forall id :: IsDue(s, id) ==> id in due)
            && (forall i, j :: 0 <= i < j < |due| ==> due[i] != due[j])
  {
    hide SchedOk, Events.Inv, Timers.ListExpired, Timers.DueIds, Timers.Sorted, ProgAt, RunAt, SlotAt, PendAt, FlyAt,
      SourceAt, WakeAt;
    Timers.ListExpiredExact(s.timers, s.clock, probe);
    Timers.SortedDistinct(s.timers);
    due := Timers.DueIds(s.timers, s.clock, s.timers.order);
  }

  /** A sleeper's callback is due once. */
  lemma SleepersOnce(s: State, due: seq<nat>, cbs: seq<Callback>, i: nat, j: nat)
    requires Inv(s) && CallbacksOf(s, due, cbs) && (forall i, j :: 0 <= i < j < |due| ==> due[i] != due[j])
    requires i < |cbs| && j < |cbs| && cbs[i] == cbs[j] && cbs[i].WakeFiber?
    ensures i == j
  {
    hide SchedOk, Events.Inv, Timers.Inv, ProgAt, RunAt, SlotAt, FlyAt, SourceAt, WakeAt;
    assert IsDue(s, due[i]) && IsDue(s, due[j]);
    assert PendAt(s, due[i]) && PendAt(s, due[j]);
  }

  /** With a clock that does not go back, exactly the timers whose deadline has come expire. */
  lemma ExpireEffect(s: State, probe: nat)
    requires Inv(s)
    ensures var (t, cbs) := Timers.ListExpired(s.timers, s.clock, probe);
            && Timers.Inv(t) && t.previous <= s.clock && t.all.Keys == s.timers.all.Keys
            && (forall id :: id in s.timers.all ==>
                  t.all[id] == if IsDue(s, id) then Timers.Settled(s.timers.all[id], s.clock) else s.timers.all[id])
            && (forall cb :: cb in cbs ==> exists id :: IsDue(s, id) && s.timers.all[id].cb == Some(cb))
            && (forall id :: IsDue(s, id) ==> s.timers.all[id].cb.Some? && s.timers.all[id].cb.value in cbs)
            && (forall i, j :: 0 <= i < |cbs| && 0 <= j < |cbs| && cbs[i] == cbs[j] && cbs[i].WakeFiber? ==> i == j)
  {
    hide InvBut, Timers.ListExpired, Timers.Inv;
    TimerFacts(s);
    var (t, cbs) := Timers.ListExpired(s.timers, s.clock, probe);
    var due := ExpiredDue(s, probe);
    forall cb | cb in cbs ensures exists id :: IsDue(s, id) && s.timers.all[id].cb == Some(cb) {
      var i :| 0 <= i < |cbs| && cbs[i] == cb;
      assert IsDue(s, due[i]);
    }
    forall id | IsDue(s, id) ensures s.timers.all[id].cb.Some? && s.timers.all[id].cb.value in cbs {
      var i :| 0 <= i < |due| && due[i] == id;
      assert cbs[i] in cbs;
    }
    forall i, j | 0 <= i < |cbs| && 0 <= j < |cbs| && cbs[i] == cbs[j] && cbs[i].WakeFiber? ensures i == j {
      SleepersOnce(s, due, cbs, i, j);
    }
  }

  lemma ExpireKeeps(s: State, probe: nat)
    requires Inv(s)
    ensures var (t, cbs) := Timers.ListExpired(s.timers, s.clock, probe);
            Inv(s.(timers := t, hands := s.hands + cbs))
  {
    hide SchedOk, Events.Inv, Timers.ListExpired, Timers.Sorted, Flying, Sched.Queued;
    var (t, cbs) := Timers.ListExpired(s.timers, s.clock, probe);
    ExpireEffect(s, probe);
    var s' := s.(timers := t, hands := s.hands + cbs);
    forall cb ensures FlyAt(s', cb) {
      ExpiredFlies(s, s', cbs, cb);
    }
    forall g ensures SourceAt(s', g) {
      assert SourceAt(s, g);
      assert multiset(s.hands + cbs)[WakeFiber(g)] == multiset(s.hands)[WakeFiber(g)] + multiset(cbs)[WakeFiber(g)];
    }
    Lift(s, s', {}, {});
  }

  lemma ExpiredFlies(s: State, s': State, cbs: seq<Callback>, cb: Callback)
    requires Inv(s) && s' == s.(timers := s'.timers, hands := s.hands + cbs) && s'.timers.all.Keys == s.timers.all.Keys
    requires forall id :: id in s.timers.all ==>
               s'.timers.all[id] == if IsDue(s, id) then Timers.Settled(s.timers.all[id], s.clock) else s.timers.all[id]
    requires cb in cbs ==> exists id :: IsDue(s, id) && s.timers.all[id].cb == Some(cb)
    requires forall i, j :: 0 <= i < |cbs| && 0 <= j < |cbs| && cbs[i] == cbs[j] && cbs[i].WakeFiber? ==> i == j
    ensures FlyAt(s', cb)
  {
    hide SchedOk, Events.Inv, Timers.Inv, Flying, Sched.Queued;
    assert multiset(s.hands + cbs)[cb] == multiset(s.hands)[cb] + multiset(cbs)[cb];
    assert FlyAt(s, cb);
    if cb in cbs {
      var id :| IsDue(s, id) && s.timers.all[id].cb == Some(cb);
      assert PendAt(s, id);
      if cb.WakeFiber? {
        var i :| 0 <= i < |cbs| && cbs[i] == cb;
        CountOnce(cbs, i);
      }
    }
  }

  // ----- time passes, and the program uses timers

  lemma TickKeeps(s: State, d: nat)
    requires Inv(s)
    ensures Inv(s.(clock := s.clock + d))
  {
    hide SchedOk, Timers.Inv, Events.Inv, Flying, Sched.Queued;
    var s' := s.(clock := s.clock + d);
    Lift(s, s', {}, {});
  }

  lemma NewTimerKeeps(s: State, id: nat, ms: nat, n: nat, recurring: bool)
    requires Inv(s) && id !in s.timers.all && Timers.Inv(s.timers)
    ensures Inv(s.(timers := Timers.AddTimer(s.timers, id, ms, User(n), recurring, s.clock).0))
  {
    hide InvBut, Timers.Inv, Timers.AddTimer;
    TimerFacts(s);
    Timers.AddTimerKeeps(s.timers, id, ms, User(n), recurring, s.clock);
    TimersMove(s, Timers.AddTimer(s.timers, id, ms, User(n), recurring, s.clock).0);
  }

  lemma CancelTimerKeeps(s: State, id: nat)
    requires Inv(s) && ByUser(s, id) && Timers.Inv(s.timers)
    ensures Inv(s.(timers := Timers.Cancel(s.timers, id).0))
  {
    hide InvBut, Timers.Inv, Timers.Cancel;
    TimerFacts(s);
    Timers.CancelKeeps(s.timers, id);
    TimersMove(s, Timers.Cancel(s.timers, id).0);
  }

  lemma RefreshTimerKeeps(s: State, id: nat)
    requires Inv(s) && ByUser(s, id) && Timers.Inv(s.timers)
    ensures Inv(s.(timers := Timers.Refresh(s.timers, id, s.clock).0))
  {
    hide InvBut, Timers.Inv, Timers.Refresh;
    TimerFacts(s);
    Timers.RefreshKeeps(s.timers, id, s.clock);
    TimersMove(s, Timers.Refresh(s.timers, id, s.clock).0);
  }

  lemma ResetTimerKeeps(s: State, id: nat, ms: nat, fromNow: bool)
    requires Inv(s) && ByUser(s, id) && Timers.Inv(s.timers)
    ensures Inv(s.(timers := Timers.Reset(s.timers, id, ms, fromNow, s.clock).0))
  {
    hide InvBut, Timers.Inv, Timers.Reset;
    TimerFacts(s);
    Timers.ResetKeeps(s.timers, id, ms, fromNow, s.clock);
    TimersMove(s, Timers.Reset(s.timers, id, ms, fromNow, s.clock).0);
  }
}
