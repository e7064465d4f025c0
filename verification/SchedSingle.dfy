/**
  Single execution.  When nobody takes a fiber before its last worker has settled it, and a fiber has at most one
  outstanding wake-up, no fiber is ever in the hands of two workers and none is forgotten.
 */
module SchedSingle {
  import opened Options
  import opened Tasks
  import opened Sched
  import opened SchedCounts
  import opened SchedApart

  // ----- the invariant

  /** A parked fiber waits for its wake-up, has been woken, or was dropped. */
  ghost predicate ParkedOk(s: State)
  {
    forall f :: f in s.fibers && s.fibers[f] == HOLD ==>
      f in s.armed || Queued(s, f) || f in s.dropped || exists w :: PickedBy(s, w, f)
  }

  ghost predicate SingleInv(s: State)
  {
    ApartInv(s) && ParkedOk(s)
  }

  // ----- parked fibers

  /** A held fiber keeps what it waits for when other things change. */
  lemma ParkedCarry(s: State, s': State, f: nat)
    requires ParkedOk(s) && f in s.fibers && s.fibers[f] == HOLD
    requires f in s.armed ==> f in s'.armed || Queued(s', f) || f in s'.dropped
    requires Queued(s, f) ==> Queued(s', f) || exists w :: PickedBy(s', w, f)
    requires f in s.dropped ==> f in s'.dropped
    requires forall w :: PickedBy(s, w, f) ==> PickedBy(s', w, f)
    ensures f in s'.armed || Queued(s', f) || f in s'.dropped || exists w :: PickedBy(s', w, f)
  {
    hide Queued;
    if !(f in s.armed || Queued(s, f) || f in s.dropped) {
      var w :| PickedBy(s, w, f);
      assert PickedBy(s', w, f);
    }
  }

  lemma PickParked(s: State, w: nat)
    requires ParkedOk(s) && Enabled(s, Pick(w))
    ensures ParkedOk(PickStep(s, w))
  {
    hide FirstEligible;
    var s' := PickStep(s, w);
    var k := FirstEligible(s.queue, s.fibers, s.workers[w].tid, 0);
    forall f | f in s'.fibers && s'.fibers[f] == HOLD
      ensures f in s'.armed || Queued(s', f) || f in s'.dropped || exists v :: PickedBy(s', v, f)
    {
      if Queued(s, f) {
        var i :| 0 <= i < |s.queue| && s.queue[i].task == FiberTask(f);
        if k < |s.queue| && i != k {
          assert s'.queue[if i < k then i else i - 1].task == FiberTask(f);
        } else if k < |s.queue| {
          assert PickedBy(s', w, f);
        }
      }
      ParkedCarry(s, s', f);
    }
  }

  lemma StartParked(s: State, w: nat, spare: nat)
    requires SingleInv(s) && Enabled(s, Start(w, spare))
    ensures ParkedOk(StartStep(s, w, spare))
  {
    var s' := StartStep(s, w, spare);
    assert WorkerOk(s, s.workers[w]);
    forall f | f in s'.fibers && s'.fibers[f] == HOLD
      ensures f in s'.armed || Queued(s', f) || f in s'.dropped || exists v :: PickedBy(s', v, f)
    {
      SameQueue(s, s', f);
      ParkedCarry(s, s', f);
    }
  }

  /** A fiber that holds itself back with no wake-up arranged counts as dropped. */
  lemma YieldParked(s: State, w: nat, st: FiberState)
    requires ParkedOk(s) && Enabled(s, YieldWrite(w, st))
    ensures ParkedOk(Next(s, YieldWrite(w, st)))
  {
    hide Queued;
    var s', g := Next(s, YieldWrite(w, st)), s.workers[w].pc.f;
    forall f | f in s'.fibers && s'.fibers[f] == HOLD
      ensures f in s'.armed || Queued(s', f) || f in s'.dropped || exists v :: PickedBy(s', v, f)
    {
      SameQueue(s, s', f);
      if f != g {
        ParkedCarry(s, s', f);
      }
    }
  }

  /** Steps that add a task, move a quiet worker, or change what is armed. */
  lemma OtherParked(s: State, s': State)
    requires ParkedOk(s)
    requires forall f :: f in s'.fibers && s'.fibers[f] == HOLD ==> f in s.fibers && s.fibers[f] == HOLD
    requires s.queue <= s'.queue
    requires forall f :: f in s.armed ==> f in s'.armed || Queued(s', f) || f in s'.dropped
    requires forall f :: f in s.dropped && f in s.fibers && s.fibers[f] == HOLD ==> f in s'.dropped
    requires forall w, f :: PickedBy(s, w, f) ==> PickedBy(s', w, f)
    ensures ParkedOk(s')
  {
    forall f | f in s'.fibers && s'.fibers[f] == HOLD
      ensures f in s'.armed || Queued(s', f) || f in s'.dropped || exists v :: PickedBy(s', v, f)
    {
      if Queued(s, f) {
        var i :| 0 <= i < |s.queue| && s.queue[i].task == FiberTask(f);
        assert s'.queue[i].task == FiberTask(f);
      }
      ParkedCarry(s, s', f);
    }
  }

  lemma SettleParked(s: State, w: nat)
    requires SingleInv(s) && Enabled(s, Settle(w))
    ensures ParkedOk(Next(s, Settle(w)))
  {
    hide Next, Queued, ParkedOk;
    assert WorkerOk(s, s.workers[w]);
    SettleEffect(s, w);
    OtherParked(s, Next(s, Settle(w)));
  }

  lemma ArmParked(s: State, w: nat)
    requires SingleInv(s) && Enabled(s, Arm(w))
    ensures ParkedOk(Next(s, Arm(w)))
  {
    assert WorkerOk(s, s.workers[w]);
    OtherParked(s, Next(s, Arm(w)));
  }

  lemma WakeParked(s: State, f: nat)
    requires ParkedOk(s) && f in s.armed
    ensures ParkedOk(Next(s, Wake(f)))
  {
    QueuedAppend(s, Next(s, Wake(f)), Entry(FiberTask(f), -1), f);
    OtherParked(s, Next(s, Wake(f)));
  }

  lemma StepParked(s: State, a: Action)
    requires SingleInv(s) && Enabled(s, a)
    ensures ParkedOk(Next(s, a))
  {
    hide ApartInv, Queued, ParkedOk, PickStep, StartStep;
    match a
    case Pick(w) => PickParked(s, w);
    case Start(w, spare) => StartParked(s, w, spare);
    case YieldWrite(w, st) => YieldParked(s, w, st);
    case Settle(w) => SettleParked(s, w);
    case Arm(w) => ArmParked(s, w);
    case Wake(f) => WakeParked(s, f);
    case Schedule(_, _) => OtherParked(s, Next(s, a));
    case Spawn(_, _) => OtherParked(s, Next(s, a));
    case Decrement(_) => OtherParked(s, Next(s, a));
    case Disarm(_) => OtherParked(s, Next(s, a));
    case GoIdle(_) => OtherParked(s, Next(s, a));
    case LeaveIdle(_) => OtherParked(s, Next(s, a));
    case Exit(_) => OtherParked(s, Next(s, a));
    case Stop => OtherParked(s, Next(s, a));
  }

  // ----- all runs

  lemma StepKeepsSingle(s: State, a: Action)
    requires SingleInv(s) && Enabled(s, a) && Disciplined(s, a) && !TakesTooEarly(s, a)
    ensures SingleInv(Next(s, a))
  {
    hide ApartInv, ParkedOk, Queued, Next, TakesTooEarly;
    StepApart(s, a);
    StepParked(s, a);
  }

  lemma {:induction false} RunKeepsSingle(s: State, acts: seq<Action>)
    requires SingleInv(s) && RunDisciplined(s, acts) && NeverTooEarly(s, acts)
    ensures SingleInv(Run(s, acts))
    decreases |acts|
  {
    hide SingleInv, Enabled, Next, Disciplined, TakesTooEarly;
    if acts != [] {
      if Enabled(s, acts[0]) {
        StepKeepsSingle(s, acts[0]);
      }
      RunKeepsSingle(Step(s, acts[0]), acts[1..]);
    }
  }

  lemma FreshIsSingle(s: State)
    requires Fresh(s)
    ensures SingleInv(s)
  {}

  /** In every reachable state no fiber is held by two workers, and no assertion on fiber states can fail. */
  lemma SingleExecution(s: State, acts: seq<Action>, v: nat, w: nat)
    requires Fresh(s) && RunDisciplined(s, acts) && NeverTooEarly(s, acts)
    requires v < |Run(s, acts).workers| && w < |Run(s, acts).workers| && v != w
    ensures var t := Run(s, acts);
            && (InHand(t.workers[v]).Some? ==> InHand(t.workers[v]) != InHand(t.workers[w]))
            && (t.workers[v].pc.Picked? && t.workers[v].pc.e.task.FiberTask? ==>
                  t.workers[v].pc.e.task.fiber in t.fibers && Unfinished(t.fibers[t.workers[v].pc.e.task.fiber]))
  {
    FreshIsSingle(s);
    RunKeepsSingle(s, acts);
    var t := Run(s, acts);
    assert Apart(t.workers[v], t.workers[w]) && WorkerOk(t, t.workers[v]);
  }

  /** At the head of its loop a worker's callback fiber is absent or new, and nobody waits for or knows it. */
  lemma ReuseIsSafe(s: State, acts: seq<Action>, w: nat)
    requires Fresh(s) && RunDisciplined(s, acts) && NeverTooEarly(s, acts)
    requires w < |Run(s, acts).workers| && !Engaged(Run(s, acts).workers[w].pc)
    ensures var t := Run(s, acts); var x := t.workers[w];
            x.cbFiber.Some? ==>
              && x.cbFiber.value in t.fibers && t.fibers[x.cbFiber.value] == INIT
              && x.cbFiber.value !in t.armed && !Queued(t, x.cbFiber.value)
              && (forall v :: 0 <= v < |t.workers| ==> InHand(t.workers[v]) != x.cbFiber)
  {
    FreshIsSingle(s);
    RunKeepsSingle(s, acts);
    var t := Run(s, acts);
    var x := t.workers[w];
    assert WorkerOk(t, x);
    if x.cbFiber.Some? {
      InHandOnly(t, w, x.cbFiber.value);
      assert Queued(t, x.cbFiber.value) ==> Free(t, w, x.cbFiber.value);
    }
  }

  /** No fiber is scheduled twice for one arrangement, and a parked one is waiting, woken, or was dropped. */
  lemma WokenAtMostOnce(s: State, acts: seq<Action>, f: nat)
    requires Fresh(s) && RunDisciplined(s, acts) && NeverTooEarly(s, acts)
    ensures var t := Run(s, acts);
            && (f in t.wakes ==> t.wakes[f] <= 1)
            && (f in t.fibers && t.fibers[f] == HOLD ==>
                  f in t.armed || Queued(t, f) || f in t.dropped || exists w :: PickedBy(t, w, f))
  {
    FreshIsSingle(s);
    RunKeepsSingle(s, acts);
  }

  // ----- whole yields

  /** No worker is on its way back from a fiber. */
  predicate NoneAway(s: State)
  {
    forall w :: 0 <= w < |s.workers| ==> !s.workers[w].pc.Yielded? && !s.workers[w].pc.Settling?
  }

  lemma NotTooEarly(s: State, a: Action)
    requires NoneAway(s) && Enabled(s, a)
    ensures !TakesTooEarly(s, a)
  {}

  lemma StaysIn(s: State, a: Action)
    requires NoneAway(s) && Enabled(s, a) && !a.YieldWrite?
    ensures NoneAway(Next(s, a))
  {
    StepWorkers(s, a);
    if Mover(a) < |s.workers| {
      MoverIn(s, a);
    }
  }

  lemma MoverIn(s: State, a: Action)
    requires Enabled(s, a) && !a.YieldWrite? && !a.Decrement? && !a.Settle? && Mover(a) < |s.workers|
    requires !s.workers[Mover(a)].pc.Yielded? && !s.workers[Mover(a)].pc.Settling?
    ensures Mover(a) < |Next(s, a).workers|
    ensures !Next(s, a).workers[Mover(a)].pc.Yielded? && !Next(s, a).workers[Mover(a)].pc.Settling?
  {
    hide PickStep, StartStep;
    if a.Pick? {
      PickMoves(s, a.w);
    } else if a.Start? {
      StartMoves(s, a.w, a.spare);
    }
  }

  /** After a yield its worker comes back in two steps, and then nobody is away again. */
  lemma ComesBack(s: State, w: nat, st: FiberState)
    requires NoneAway(s) && Enabled(s, YieldWrite(w, st))
    ensures var s1 := Next(s, YieldWrite(w, st));
            Enabled(s1, Decrement(w)) && Enabled(Next(s1, Decrement(w)), Settle(w))
            && NoneAway(Next(Next(s1, Decrement(w)), Settle(w)))
  {
    hide Queued, SettleStep;
    SettleMoves(Next(Next(s, YieldWrite(w, st)), Decrement(w)), w);
  }

  /** Every yield is followed at once by its worker's write-back. */
  predicate Whole(acts: seq<Action>)
    decreases |acts|
  {
    acts == [] ||
    if acts[0].YieldWrite?
    then |acts| >= 3 && acts[1] == Decrement(acts[0].w) && acts[2] == Settle(acts[0].w) && Whole(acts[3..])
    else !acts[0].Decrement? && !acts[0].Settle? && Whole(acts[1..])
  }

  /** With whole yields nothing is ever taken too early. */
  lemma {:induction false} WholeNeverTooEarly(s: State, acts: seq<Action>)
    requires NoneAway(s) && Whole(acts)
    ensures NeverTooEarly(s, acts)
    decreases |acts|
  {
    hide Next, TakesTooEarly;
    if acts != [] {
      if acts[0].YieldWrite? {
        var w := acts[0].w;
        var s1 := Step(s, acts[0]);
        var s2 := Step(s1, Decrement(w));
        assert acts[1..][1..][1..] == acts[3..] && acts[1..][0] == acts[1] && acts[1..][1..][0] == acts[2];
        if Enabled(s, acts[0]) {
          ComesBack(s, w, acts[0].st);
        }
        WholeNeverTooEarly(Step(s2, Settle(w)), acts[3..]);
        NoPick(s, acts[0]);
        NoPick(s1, acts[1]);
        NoPick(s2, acts[2]);
        assert NeverTooEarly(s2, acts[1..][1..]);
        assert NeverTooEarly(s1, acts[1..]);
      } else {
        if Enabled(s, acts[0]) {
          NotTooEarly(s, acts[0]);
          StaysIn(s, acts[0]);
        }
        WholeNeverTooEarly(Step(s, acts[0]), acts[1..]);
      }
    }
  }

  lemma NoPick(s: State, a: Action)
    requires !a.Pick?
    ensures !(Enabled(s, a) && TakesTooEarly(s, a))
  {}

  // ----- what happens otherwise

  const TASK := Entry(FiberTask(7), -1)

  /** Two workers and one fiber. */
  function Pair(queue: seq<Entry>, st: FiberState, pc0: Pc, pc1: Pc, active: int, armed: set<nat>, wakes: map<nat, nat>,
                log: seq<Entry>, taken: seq<Entry>): State
  {
    State(queue, map[7 := st], [Worker(0, pc0, None), Worker(1, pc1, None)], active, 0, false, false, armed, {},
          wakes, log, taken)
  }

  lemma FiberStarts(s: State)
    requires s == State([], map[], [Worker(0, Scan, None), Worker(1, Scan, None)], 0, 0, false, false, {}, {}, map[],
        [], [])
    ensures Run(s, [Spawn(7, -1), Pick(0), Start(0, 0)])
            == Pair([], EXEC, Running(7, false, TASK), Scan, 1, {}, map[], [TASK], [TASK])
  {
    var s1 := Pair([TASK], INIT, Scan, Scan, 0, {}, map[], [TASK], []);
    assert Step(s, Spawn(7, -1)) == s1;
    var s2 := Pair([], INIT, Picked(TASK), Scan, 1, {}, map[], [TASK], [TASK]);
    assert Step(s1, Pick(0)) == s2;
    Three(s, Spawn(7, -1), Pick(0), Start(0, 0));
  }

  lemma FiberParks()
    ensures Run(Pair([], EXEC, Running(7, false, TASK), Scan, 1, {}, map[], [TASK], [TASK]),
                [Arm(0), YieldWrite(0, HOLD), Wake(7)])
            == Pair([TASK], HOLD, Yielded(7, false), Scan, 1, {}, map[7 := 1], [TASK, TASK], [TASK])
  {
    var s := Pair([], EXEC, Running(7, false, TASK), Scan, 1, {}, map[], [TASK], [TASK]);
    var s1 := Pair([], EXEC, Running(7, false, TASK), Scan, 1, {7}, map[7 := 0], [TASK], [TASK]);
    assert Step(s, Arm(0)) == s1;
    var s2 := Pair([], HOLD, Yielded(7, false), Scan, 1, {7}, map[7 := 0], [TASK], [TASK]);
    assert Step(s1, YieldWrite(0, HOLD)) == s2;
    Three(s, Arm(0), YieldWrite(0, HOLD), Wake(7));
  }

  lemma FiberIsTaken()
    ensures Run(Pair([TASK], HOLD, Yielded(7, false), Scan, 1, {}, map[7 := 1], [TASK, TASK], [TASK]),
                [Pick(1), Start(1, 0), Stop]).workers
            == [Worker(0, Yielded(7, false), None), Worker(1, Running(7, false, TASK), None)]
  {
    var s := Pair([TASK], HOLD, Yielded(7, false), Scan, 1, {}, map[7 := 1], [TASK, TASK], [TASK]);
    var s1 := Pair([], HOLD, Yielded(7, false), Picked(TASK), 2, {}, map[7 := 1], [TASK, TASK], [TASK, TASK]);
    assert Step(s, Pick(1)) == s1;
    var s2 := Pair([], EXEC, Yielded(7, false), Running(7, false, TASK), 2, {}, map[7 := 1], [TASK, TASK],
        [TASK, TASK]);
    assert Step(s1, Start(1, 0)) == s2;
    Three(s, Pick(1), Start(1, 0), Stop);
  }

  /**
    With the yield in pieces: a fiber arms itself, writes that it is held, is woken, and is running in a second worker
    while the first is still on its way back from it.
   */
  lemma SplitYieldBreaksIt()
    ensures exists s: State, acts: seq<Action> ::
              && Fresh(s) && |s.workers| == 2 && RunDisciplined(s, acts) && !AlwaysHeldOnce(s, acts)
              && Run(s, acts).workers == [Worker(0, Yielded(7, false), None), Worker(1, Running(7, false, TASK), None)]
  {
    hide Step, Pair, RunDisciplined, AlwaysHeldOnce;
    var s := State([], map[], [Worker(0, Scan, None), Worker(1, Scan, None)], 0, 0, false, false, {}, {}, map[], [],
        []);
    var a, b := [Spawn(7, -1), Pick(0), Start(0, 0)], [Arm(0), YieldWrite(0, HOLD), Wake(7)];
    var c := [Pick(1), Start(1, 0), Stop];
    FiberStarts(s);
    FiberParks();
    FiberIsTaken();
    RunConcat(s, a, b + c);
    RunConcat(Run(s, a), b, c);
    var acts := a + (b + c);
    assert Run(s, acts).workers == [Worker(0, Yielded(7, false), None), Worker(1, Running(7, false, TASK), None)];
    NoQueue();
    HeldDiscipline(Run(s, a), b + c);
    NoArms(s, a, b + c);
    TwiceHeld(Run(s, acts));
    HeldToTheEnd(s, acts);
  }

  lemma NoQueue()
    ensures Pair([], EXEC, Running(7, false, TASK), Scan, 1, {}, map[], [TASK], [TASK]).queue == []
  {}

  lemma TwiceHeld(s: State)
    requires s.workers == [Worker(0, Yielded(7, false), None), Worker(1, Running(7, false, TASK), None)]
    ensures !HeldOnce(s)
  {
    assert InHand(s.workers[0]) == InHand(s.workers[1]);
  }

  lemma {:induction false} HeldToTheEnd(s: State, acts: seq<Action>)
    ensures AlwaysHeldOnce(s, acts) ==> HeldOnce(Run(s, acts))
    decreases |acts|
  {
    hide Step, HeldOnce;
    if acts != [] {
      HeldToTheEnd(Step(s, acts[0]), acts[1..]);
    }
  }

  /** Without arming and yielding there is nothing to keep to. */
  lemma {:induction false} NoArms(s: State, a: seq<Action>, b: seq<Action>)
    requires forall i :: 0 <= i < |a| ==> !a[i].Arm? && !a[i].YieldWrite?
    requires RunDisciplined(Run(s, a), b)
    ensures RunDisciplined(s, a + b)
    decreases |a|
  {
    hide Step, Queued;
    if a == [] {
      assert a + b == b;
    } else {
      assert (a + b)[0] == a[0] && (a + b)[1..] == a[1..] + b;
      NoArms(Step(s, a[0]), a[1..], b);
    }
  }

  /** Arming with an empty queue and then yielding to be held keeps to it. */
  lemma HeldDiscipline(s: State, acts: seq<Action>)
    requires s.queue == [] && |acts| >= 2 && acts[0].Arm? && acts[1].YieldWrite? && acts[1].st == HOLD
    requires forall i :: 2 <= i < |acts| ==> !acts[i].Arm? && !acts[i].YieldWrite?
    ensures RunDisciplined(s, acts)
  {
    hide Step;
    var s1 := Step(s, acts[0]);
    var s2 := Step(s1, acts[1]);
    assert acts[1..][1..] == acts[2..] && acts[1..][0] == acts[1];
    assert acts[2..] + [] == acts[2..];
    NoArms(s2, acts[2..], []);
    assert RunDisciplined(s1, acts[1..]);
  }

  lemma Three(s: State, a: Action, b: Action, c: Action)
    ensures Run(s, [a, b, c]) == Step(Step(Step(s, a), b), c)
  {
    hide Step;
    assert [a, b, c][1..] == [b, c] && [b, c][1..] == [c];
    assert Run(s, [a, b, c]) == Run(Step(s, a), [b, c]);
    assert Run(Step(s, a), [b, c]) == Run(Step(Step(s, a), b), [c]);
    assert [c][1..] == [];
  }

  lemma {:induction false} RunConcat(s: State, a: seq<Action>, b: seq<Action>)
    ensures Run(s, a + b) == Run(Run(s, a), b)
    decreases |a|
  {
    hide Step;
    if a == [] {
      assert a + b == b;
    } else {
      assert (a + b)[0] == a[0] && (a + b)[1..] == a[1..] + b;
      RunConcat(Step(s, a[0]), a[1..], b);
    }
  }
}
