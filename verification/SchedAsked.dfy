/** What the scheduler was asked to do, over every run: the tasks it logs, who runs them, and when it may stop. */
module SchedAsked {
  import opened Options
  import opened Tasks
  import opened Sched
  import opened SchedCounts

  // ----- the tasks asked for

  /** The task a step asks for, with the thread it is for: scheduled, spawned, woken, or put back by its worker. */
  function AskedBy(s: State, a: Action): seq<Entry>
    requires Enabled(s, a)
  {
    match a
    case Schedule(cb, thread) => [Entry(CallTask(cb), thread)]
    case Spawn(f, thread) => [Entry(FiberTask(f), thread)]
    case Wake(f) => [Entry(FiberTask(f), -1)]
    case Settle(w) =>
      if s.fibers[s.workers[w].pc.f] == READY then [Entry(FiberTask(s.workers[w].pc.f), -1)] else []
    case _ => []
  }

  function Asked(s: State, acts: seq<Action>): seq<Entry>
    decreases |acts|
  {
    if acts == [] then [] else
      (if Enabled(s, acts[0]) then AskedBy(s, acts[0]) else []) + Asked(Step(s, acts[0]), acts[1..])
  }

  lemma StepLog(s: State, a: Action)
    requires Enabled(s, a)
    ensures Next(s, a).log == s.log + AskedBy(s, a)
  {
    hide PickStep, StartStep, SettleStep, Queued;
    match a
    case Pick(w) => PickLog(s, w);
    case Start(w, spare) => StartLog(s, w, spare);
    case Settle(w) => SettleLog(s, w);
    case _ =>
  }

  lemma PickLog(s: State, w: nat)
    requires Enabled(s, Pick(w))
    ensures PickStep(s, w).log == s.log
  {}

  lemma StartLog(s: State, w: nat, spare: nat)
    requires Enabled(s, Start(w, spare))
    ensures StartStep(s, w, spare).log == s.log
  {}

  lemma SettleLog(s: State, w: nat)
    requires Enabled(s, Settle(w))
    ensures SettleStep(s, w).log == s.log + AskedBy(s, Settle(w))
  {}

  /** In every run the log is what was asked for, in order, each task for the thread named. */
  lemma {:induction false} LogExactly(s: State, acts: seq<Action>)
    ensures Run(s, acts).log == s.log + Asked(s, acts)
    decreases |acts|
  {
    hide Next, Enabled, AskedBy;
    if acts != [] {
      if Enabled(s, acts[0]) {
        StepLog(s, acts[0]);
      }
      LogExactly(Step(s, acts[0]), acts[1..]);
    }
  }

  // ----- who runs them

  /** Taking a task: the first one that is for this thread or for anybody and is not a fiber still executing. */
  lemma PickExact(s: State, w: nat)
    requires Enabled(s, Pick(w))
    ensures var s', tid := PickStep(s, w), s.workers[w].tid;
            || (s' == s && forall i :: 0 <= i < |s.queue| ==> Passed(s, tid, s.queue[i]))
            || (exists k :: && 0 <= k < |s.queue| && !Passed(s, tid, s.queue[k])
                            && (forall i :: 0 <= i < k ==> Passed(s, tid, s.queue[i]))
                            && s'.workers[w].pc == Picked(s.queue[k]) && s'.taken == s.taken + [s.queue[k]]
                            && s'.queue == s.queue[..k] + s.queue[k + 1..])
  {
    var tid := s.workers[w].tid;
    var k := FirstEligible(s.queue, s.fibers, tid, 0);
    forall i | 0 <= i < |s.queue| ensures Eligible(s.queue[i], s.fibers, tid) <==> !Passed(s, tid, s.queue[i]) {}
    if k < |s.queue| {
      assert !Passed(s, tid, s.queue[k]);
    }
  }

  /** A queued task is left to others: it is for another thread, or a fiber that executes. */
  predicate Passed(s: State, tid: int, e: Entry)
  {
    || (e.thread != -1 && e.thread != tid)
    || (e.task.FiberTask? && e.task.fiber in s.fibers && s.fibers[e.task.fiber] == EXEC)
  }

  predicate HoldsEntry(pc: Pc)
  {
    pc.Picked? || pc.Running?
  }

  /** What a worker has picked or runs was logged. */
  predicate HeldLogged(s: State)
  {
    && Conserved(s)
    && forall w :: 0 <= w < |s.workers| && HoldsEntry(s.workers[w].pc) ==> s.workers[w].pc.e in s.log
  }

  predicate SameTids(s: State, t: State)
  {
    |t.workers| == |s.workers| && forall w :: 0 <= w < |s.workers| ==> t.workers[w].tid == s.workers[w].tid
  }

  lemma QueuedLogged(s: State, k: nat)
    requires Conserved(s) && k < |s.queue|
    ensures s.queue[k] in s.log
  {
    assert s.queue[k] in multiset(s.queue);
    assert s.queue[k] in multiset(s.log);
  }

  /** A worker goes on with the task it had, or has one from the queue. */
  lemma MoverEntry(s: State, a: Action)
    requires Enabled(s, a)
    ensures SameTids(s, Next(s, a))
    ensures var t := Next(s, a);
            forall w :: 0 <= w < |t.workers| && HoldsEntry(t.workers[w].pc) ==>
              (HoldsEntry(s.workers[w].pc) && t.workers[w].pc.e == s.workers[w].pc.e) || t.workers[w].pc.e in s.queue
  {
    hide PickStep, StartStep, SettleStep, Queued;
    match a
    case Pick(w) => PickEntry(s, w);
    case Start(w, spare) => StartEntry(s, w, spare);
    case Settle(w) =>
      SettleMoves(s, w);
      SettleTid(s, w);
    case _ =>
  }

  lemma PickEntry(s: State, w: nat)
    requires Enabled(s, Pick(w))
    ensures var t := PickStep(s, w);
            && SameTids(s, t) && t.workers == s.workers[w := t.workers[w]]
            && (HoldsEntry(t.workers[w].pc) ==> t.workers[w].pc.e in s.queue)
  {}

  lemma StartEntry(s: State, w: nat, spare: nat)
    requires Enabled(s, Start(w, spare))
    ensures var t := StartStep(s, w, spare);
            && SameTids(s, t) && t.workers == s.workers[w := t.workers[w]]
            && (HoldsEntry(t.workers[w].pc) ==> t.workers[w].pc.e == s.workers[w].pc.e)
  {}

  lemma SettleTid(s: State, w: nat)
    requires Enabled(s, Settle(w))
    ensures SameTids(s, SettleStep(s, w))
  {}

  lemma HeldKept(s: State, a: Action)
    requires HeldLogged(s) && InOrder(s) && Enabled(s, a)
    ensures HeldLogged(Next(s, a)) && SameTids(s, Next(s, a))
  {
    hide Next, Enabled, Conserved, InOrder, AskedBy;
    TasksKept(s, a);
    StepLog(s, a);
    MoverEntry(s, a);
    var t := Next(s, a);
    forall w | 0 <= w < |t.workers| && HoldsEntry(t.workers[w].pc) ensures t.workers[w].pc.e in t.log {
      if t.workers[w].pc.e in s.queue {
        var k :| 0 <= k < |s.queue| && s.queue[k] == t.workers[w].pc.e;
        QueuedLogged(s, k);
      }
    }
  }

  lemma {:induction false} HeldRun(s: State, acts: seq<Action>)
    requires HeldLogged(s) && InOrder(s)
    ensures HeldLogged(Run(s, acts)) && SameTids(s, Run(s, acts))
    decreases |acts|
  {
    hide Next, Enabled, Conserved, InOrder;
    if acts != [] {
      if Enabled(s, acts[0]) {
        HeldKept(s, acts[0]);
        TasksKept(s, acts[0]);
      }
      HeldRun(Step(s, acts[0]), acts[1..]);
    }
  }

  /** A callback is asked for only by scheduling it. */
  lemma {:induction false} CallWasScheduled(s: State, acts: seq<Action>, e: Entry)
    requires e.task.CallTask? && e in Asked(s, acts)
    ensures exists i :: 0 <= i < |acts| && acts[i] == Schedule(e.task.cb, e.thread)
    decreases |acts|
  {
    hide Next, Enabled;
    if !(acts[0] == Schedule(e.task.cb, e.thread)) {
      CallWasScheduled(Step(s, acts[0]), acts[1..], e);
      var i :| 0 <= i < |acts[1..]| && acts[1..][i] == Schedule(e.task.cb, e.thread);
      assert acts[i + 1] == Schedule(e.task.cb, e.thread);
    }
  }

  /**
    In every run of a fresh scheduler, what a worker has picked or runs was asked for, for its own thread or for
    anybody; a callback by a call that scheduled it so.
   */
  lemma RunsWhereAsked(s: State, acts: seq<Action>, w: nat)
    requires Fresh(s) && w < |Run(s, acts).workers| && HoldsEntry(Run(s, acts).workers[w].pc)
    ensures |Run(s, acts).workers| == |s.workers|
    ensures var e := Run(s, acts).workers[w].pc.e;
            && e in Asked(s, acts) && (e.thread == -1 || e.thread == s.workers[w].tid)
            && (e.task.CallTask? ==> exists i :: 0 <= i < |acts| && acts[i] == Schedule(e.task.cb, e.thread))
  {
    hide Run, Asked;
    FreshIsGood(s);
    HeldRun(s, acts);
    LogExactly(s, acts);
    SchedCounts.RunKeeps(s, acts);
    var t := Run(s, acts);
    assert Pinned(t.workers[w]);
    assert s.log + Asked(s, acts) == Asked(s, acts);
    if t.workers[w].pc.e.task.CallTask? {
      CallWasScheduled(s, acts, t.workers[w].pc.e);
    }
  }

  /** In every run each task asked for is queued or taken, as often as it was asked for. */
  lemma TasksAsAsked(s: State, acts: seq<Action>)
    requires Fresh(s)
    ensures multiset(Asked(s, acts)) == multiset(Run(s, acts).queue) + multiset(Run(s, acts).taken)
  {
    hide Run, Asked;
    FreshIsGood(s);
    SchedCounts.RunKeeps(s, acts);
    LogExactly(s, acts);
    assert s.log + Asked(s, acts) == Asked(s, acts);
  }

  // ----- workers that have left, and fibers that have ended

  lemma ExitStep(s: State, a: Action, w: nat)
    requires Enabled(s, a) && w < |s.workers|
    ensures w < |Next(s, a).workers|
    ensures Next(s, a).workers[w].pc.Exited? <==> s.workers[w].pc.Exited? || a == Exit(w)
  {
    hide PickStep, StartStep, SettleStep, Queued;
    match a
    case Pick(v) => PickMoves(s, v);
    case Start(v, spare) => StartMoves(s, v, spare);
    case Settle(v) => SettleMoves(s, v);
    case _ =>
  }

  /** Worker `w` leaves its loop in the run. */
  ghost predicate Leaves(s: State, acts: seq<Action>, w: nat)
    decreases |acts|
  {
    acts != [] && ((Enabled(s, acts[0]) && acts[0] == Exit(w)) || Leaves(Step(s, acts[0]), acts[1..], w))
  }

  /** A worker is out of its loop exactly if it has left it: it never comes back, and takes nothing more. */
  lemma {:induction false} ExitExactly(s: State, acts: seq<Action>, w: nat)
    requires w < |s.workers|
    ensures w < |Run(s, acts).workers|
    ensures Run(s, acts).workers[w].pc.Exited? <==> s.workers[w].pc.Exited? || Leaves(s, acts, w)
    decreases |acts|
  {
    hide Next, Enabled;
    if acts != [] {
      if Enabled(s, acts[0]) {
        ExitStep(s, acts[0], w);
      }
      ExitExactly(Step(s, acts[0]), acts[1..], w);
    }
  }

  predicate HasEnded(s: State, f: nat)
  {
    f in s.fibers && (s.fibers[f] == TERM || s.fibers[f] == EXCEPT)
  }

  /** No worker is in the fiber, on its way back from it, or keeps it for callbacks. */
  predicate NobodyHas(s: State, f: nat)
  {
    forall w :: 0 <= w < |s.workers| ==> s.workers[w].cbFiber != Some(f) && !RunBy(s, w, f) && !SwappedOutBy(s, w, f)
  }

  lemma EndedStep(s: State, a: Action, f: nat)
    requires Enabled(s, a) && HasEnded(s, f) && NobodyHas(s, f)
    ensures var t := Next(s, a); t.fibers[f] == s.fibers[f] && HasEnded(t, f) && NobodyHas(t, f)
  {
    hide PickStep, StartStep, SettleStep, Queued;
    match a
    case Pick(w) => EndedPick(s, w, f);
    case Start(w, spare) => EndedStart(s, w, spare, f);
    case Settle(w) => EndedSettle(s, w, f);
    case _ =>
  }

  lemma EndedPick(s: State, w: nat, f: nat)
    requires Enabled(s, Pick(w)) && HasEnded(s, f) && NobodyHas(s, f)
    ensures PickStep(s, w).fibers == s.fibers && NobodyHas(PickStep(s, w), f)
  {
    hide FirstEligible;
  }

  lemma EndedStart(s: State, w: nat, spare: nat, f: nat)
    requires Enabled(s, Start(w, spare)) && HasEnded(s, f) && NobodyHas(s, f)
    ensures var t := StartStep(s, w, spare); f in t.fibers && t.fibers[f] == s.fibers[f] && NobodyHas(t, f)
  {}

  lemma EndedSettle(s: State, w: nat, f: nat)
    requires Enabled(s, Settle(w)) && HasEnded(s, f) && NobodyHas(s, f)
    ensures var t := SettleStep(s, w); f in t.fibers && t.fibers[f] == s.fibers[f] && NobodyHas(t, f)
  {
    assert !SwappedOutBy(s, w, f);
  }

  /** In every run, whoever still schedules it: a fiber that has ended, normally or not, never runs again. */
  lemma {:induction false} EndedIsFinal(s: State, acts: seq<Action>, f: nat)
    requires HasEnded(s, f) && NobodyHas(s, f)
    ensures var t := Run(s, acts); HasEnded(t, f) && t.fibers[f] == s.fibers[f] && NobodyHas(t, f)
    decreases |acts|
  {
    hide Next, Enabled, HasEnded, NobodyHas;
    if acts != [] {
      if Enabled(s, acts[0]) {
        EndedStep(s, acts[0], f);
      }
      EndedIsFinal(Step(s, acts[0]), acts[1..], f);
    }
  }

  // ----- when it may stop

  lemma StepFlags(s: State, a: Action)
    requires Enabled(s, a)
    ensures var t := Next(s, a);
            if a.Stop? then t.autoStop && t.stopping else t.autoStop == s.autoStop && t.stopping == s.stopping
  {
    hide Queued, FirstEligible;
  }

  /** Both flags are up at the end of a run exactly if it was asked to stop, before or on the way. */
  lemma {:induction false} FlagsExactly(s: State, acts: seq<Action>)
    ensures var t := Run(s, acts);
            t.autoStop && t.stopping <==> (s.autoStop && s.stopping) || exists i :: 0 <= i < |acts| && acts[i].Stop?
    decreases |acts|
  {
    hide Next;
    if acts != [] {
      if Enabled(s, acts[0]) {
        StepFlags(s, acts[0]);
      }
      FlagsExactly(Step(s, acts[0]), acts[1..]);
      if i :| 0 <= i < |acts| && acts[i].Stop? && i > 0 {
        assert acts[1..][i - 1].Stop?;
      }
    }
  }

  /** A worker between picking a task and counting it down. */
  predicate AtWork(pc: Pc)
  {
    pc.Picked? || pc.Running? || pc.Yielded?
  }

  lemma {:induction false} NobodyCounted(ws: seq<Worker>)
    ensures Active(ws) == 0 <==> forall w :: 0 <= w < |ws| ==> !AtWork(ws[w].pc)
  {
    if ws != [] {
      NobodyCounted(ws[1..]);
      assert forall w :: 0 <= w < |ws| ==> ws[w] == if w == 0 then ws[0] else ws[1..][w - 1];
      if Active(ws) == 0 {
        forall w | 0 <= w < |ws| ensures !AtWork(ws[w].pc) {
          assert w > 0 ==> !AtWork(ws[1..][w - 1].pc);
        }
      } else if !AtWork(ws[0].pc) {
        var w :| 0 <= w < |ws[1..]| && AtWork(ws[1..][w].pc);
        assert AtWork(ws[w + 1].pc);
      }
    }
  }

  lemma NoneQueued(s: State)
    requires Conserved(s)
    ensures s.queue == [] <==> multiset(s.log) == multiset(s.taken)
  {
    if multiset(s.log) == multiset(s.taken) {
      assert multiset(s.queue) == multiset{};
      assert |multiset(s.queue)| == |s.queue|;
    }
  }

  /** For counters and tasks that add up: may stop exactly if asked to, with every task taken and nobody at work. */
  lemma StoppingExactly(s: State)
    requires FineInv(s)
    ensures Stopping(s) <==>
              && s.autoStop && s.stopping && multiset(s.log) == multiset(s.taken)
              && forall w :: 0 <= w < |s.workers| ==> !AtWork(s.workers[w].pc)
  {
    hide InOrder, WorkersOk, AllAccounted;
    NoneQueued(s);
    NobodyCounted(s.workers);
  }

  /**
    Over every run of a fresh scheduler that nobody has asked to stop: it may stop exactly if it was asked to on the
    way, every task asked for has been taken, and no worker is between picking one and counting it down.
   */
  lemma StopExactly(s: State, acts: seq<Action>)
    requires Fresh(s) && !s.autoStop
    ensures var t := Run(s, acts);
            Stopping(t) <==>
              && (exists i :: 0 <= i < |acts| && acts[i].Stop?)
              && multiset(Asked(s, acts)) == multiset(t.taken)
              && forall w :: 0 <= w < |t.workers| ==> !AtWork(t.workers[w].pc)
  {
    hide Run, Asked, FineInv, Stopping;
    FreshIsGood(s);
    SchedCounts.RunKeeps(s, acts);
    FlagsExactly(s, acts);
    LogExactly(s, acts);
    StoppingExactly(Run(s, acts));
    assert s.log + Asked(s, acts) == Asked(s, acts);
  }
}
