/** The timers of hooked calls: a pending one belongs to a call that has armed it and not come back from its wait. */
module RuntimeTimers {
  import opened Options
  import opened Tasks
  import Sched
  import Timers
  import Events
  import opened Runtime
  import opened RuntimeTheorems

  /** From arming the timeout until the wait is over or was not to be. */
  predicate Armed(at: Stage)
  {
    at == Registering || at == Failing || at == Yielding || at == Parked
  }

  /** The call has armed this timer. */
  predicate Arms(prog: map<nat, Prog>, cb: Callback, id: nat)
    requires cb.IoTimeout?
  {
    && cb.fiber in prog && prog[cb.fiber].Io? && Armed(prog[cb.fiber].at)
    && prog[cb.fiber].call.info == cb.info && prog[cb.fiber].call.fd == cb.fd && prog[cb.fiber].call.ev == cb.event
    && prog[cb.fiber].call.timer == Some(id)
  }

  predicate IsTimeout(t: Timers.State, id: nat)
  {
    id in t.all && t.all[id].cb.Some? && t.all[id].cb.value.IoTimeout?
  }

  /** Every pending timeout is one its call has armed and not done with. */
  ghost predicate Owned(s: State)
  {
    forall id :: IsTimeout(s.timers, id) ==> Arms(s.prog, s.timers.all[id].cb.value, id)
  }

  /** Timeouts are those there were, except one that was cancelled; what else is in the set is nothing to a call. */
  ghost predicate NoNewTimeouts(t: Timers.State, t': Timers.State, gone: Option<nat>)
  {
    forall id :: IsTimeout(t', id) ==> IsTimeout(t, id) && t'.all[id].cb == t.all[id].cb && gone != Some(id)
  }

  /** A fiber's place changes; if it had armed a timer, the timer is gone or it still has. */
  predicate PlaceMoves(s: State, s': State, f: nat, gone: Option<nat>)
  {
    && (forall g :: g != f && g in s.prog ==> g in s'.prog && s'.prog[g] == s.prog[g])
    && (f in s.prog && s.prog[f].Io? && Armed(s.prog[f].at) && s.prog[f].call.timer.Some?
          && s.prog[f].call.timer != gone ==>
          && f in s'.prog && s'.prog[f].Io? && Armed(s'.prog[f].at)
          && s'.prog[f].call == s.prog[f].call.(cancelled := s'.prog[f].call.cancelled))
  }

  lemma OwnedMoves(s: State, s': State, f: nat, gone: Option<nat>)
    requires Owned(s) && NoNewTimeouts(s.timers, s'.timers, gone) && PlaceMoves(s, s', f, gone)
    ensures Owned(s')
  {
    forall id | IsTimeout(s'.timers, id) ensures Arms(s'.prog, s'.timers.all[id].cb.value, id) {
      assert Arms(s.prog, s.timers.all[id].cb.value, id);
    }
  }

  // ----- steps that touch the timers

  lemma SetTimerOwned(s: State, w: nat, id: nat)
    requires Sound(s) && Owned(s) && InIo(s, w, Arming) && id !in s.timers.all
    ensures Owned(SetTimerNext(s, s.sched.workers[w].pc.f, id))
  {
    hide Timers.Inv, Timers.AddTimer;
    var f := s.sched.workers[w].pc.f;
    var c, s' := s.prog[f].call, SetTimerNext(s, f, id);
    if c.timeout.Some? {
      Timers.AddTimerKeeps(s.timers, id, c.timeout.value, IoTimeout(f, c.info, c.fd, c.ev), false, s.clock);
    }
    forall x | IsTimeout(s'.timers, x) ensures Arms(s'.prog, s'.timers.all[x].cb.value, x) {
      if x in s.timers.all {
        assert IsTimeout(s.timers, x) ==> Arms(s.prog, s.timers.all[x].cb.value, x);
      }
    }
  }

  lemma SleepOwned(s: State, w: nat, ms: nat, id: nat)
    requires Sound(s) && Owned(s) && Outside(s, w) && id !in s.timers.all
    ensures Owned(SleepNext(s, s.sched.workers[w].pc.f, ms, id))
  {
    hide Timers.Inv, Timers.AddTimer;
    var f := s.sched.workers[w].pc.f;
    Timers.AddTimerKeeps(s.timers, id, ms, WakeFiber(f), false, s.clock);
    OwnedMoves(s, SleepNext(s, f, ms, id), f, None);
  }

  /** Coming back from the wait, or giving up, cancels the call's timer. */
  lemma CancelOwned(s: State, a: Action)
    requires Sound(s) && Owned(s) && Enabled(s, a) && (a.GiveUp? || a.Wakened?)
    ensures Owned(Next(s, a))
  {
    hide Timers.Inv, Timers.Cancel;
    var f := s.sched.workers[a.w].pc.f;
    var id := s.prog[f].call.timer;
    if id.Some? {
      Timers.CancelKeeps(s.timers, id.value);
    }
    OwnedMoves(s, Next(s, a), f, id);
  }

  lemma UserOwned(s: State, a: Action)
    requires Sound(s) && Owned(s) && Enabled(s, a)
    requires a.NewTimer? || a.CancelTimer? || a.RefreshTimer? || a.ResetTimer?
    ensures Owned(Next(s, a))
  {
    hide Timers.Inv, Timers.AddTimer, Timers.Cancel, Timers.Refresh, Timers.Reset;
    match a
    case NewTimer(id, ms, n, recurring) => Timers.AddTimerKeeps(s.timers, id, ms, User(n), recurring, s.clock);
    case CancelTimer(id) => Timers.CancelKeeps(s.timers, id);
    case RefreshTimer(id) => Timers.RefreshKeeps(s.timers, id, s.clock);
    case ResetTimer(id, ms, fromNow) => Timers.ResetKeeps(s.timers, id, ms, fromNow, s.clock);
  }

  lemma ExpireOwned(s: State, probe: nat)
    requires Sound(s) && Owned(s)
    ensures Owned(Next(s, Expire(probe)))
  {
    hide Timers.Inv, Timers.ListExpired, Timers.DueIds;
    Timers.ListExpiredExact(s.timers, s.clock, probe);
    OwnedMoves(s, Next(s, Expire(probe)), 0, None);
  }

  // ----- the others

  /** Steps that arm, cancel or expire timers. */
  predicate OnTimers(a: Action)
  {
    a.SetTimer? || a.BeginSleep? || a.GiveUp? || a.Wakened? || a.Expire? || a.NewTimer? || a.CancelTimer?
    || a.RefreshTimer? || a.ResetTimer?
  }

  lemma HookPlaced(s: State, a: Action)
    requires Sound(s) && Enabled(s, a)
    requires a.BeginIo? || a.Attempt? || a.Register? || a.Park? || a.Check? || a.EndSleep?
    ensures Next(s, a).timers == s.timers && PlaceMoves(s, Next(s, a), s.sched.workers[a.w].pc.f, None)
  {
    hide Sched.YieldStep, Timers.Inv, Events.AddEvent;
  }

  lemma TimerPlaced(s: State, w: nat, ok: bool)
    requires Sound(s) && Enabled(s, RunTimer(w, ok))
    ensures var t, cb := Next(s, RunTimer(w, ok)), s.sched.workers[w].pc.e.task.cb;
            t.timers == s.timers && PlaceMoves(s, t, if cb.IoTimeout? then cb.fiber else 0, None)
  {
    hide Sched.YieldStep, Deliver, Timers.Inv, Events.CancelEvent;
  }

  lemma OtherPlaced(s: State, a: Action)
    requires Sound(s) && Enabled(s, a) && !OnTimers(a)
    requires !(a.BeginIo? || a.Attempt? || a.Register? || a.Park? || a.Check? || a.EndSleep? || a.RunTimer?)
    ensures Next(s, a).timers == s.timers && Next(s, a).prog == s.prog
  {
    hide Sched.YieldStep, Deliver, Timers.Inv, Events.AddEvent, Events.CancelEvent, Events.Dispatch, Events.CancelAll,
      Events.DelEvent, Sched.Next, Sched.Enabled;
  }

  lemma OtherOwned(s: State, a: Action)
    requires Sound(s) && Owned(s) && Enabled(s, a) && !OnTimers(a)
    ensures Owned(Next(s, a))
  {
    hide Next, Sound, Owned;
    if a.BeginIo? || a.Attempt? || a.Register? || a.Park? || a.Check? || a.EndSleep? {
      HookPlaced(s, a);
      OwnedMoves(s, Next(s, a), s.sched.workers[a.w].pc.f, None);
    } else if a.RunTimer? {
      TimerPlaced(s, a.w, a.ok);
      var cb := s.sched.workers[a.w].pc.e.task.cb;
      OwnedMoves(s, Next(s, a), if cb.IoTimeout? then cb.fiber else 0, None);
    } else {
      OtherPlaced(s, a);
      OwnedMoves(s, Next(s, a), 0, None);
    }
  }

  lemma StepOwned(s: State, a: Action)
    requires Sound(s) && Owned(s) && Enabled(s, a)
    ensures Owned(Next(s, a))
  {
    hide Sound, Owned, Timers.Inv, SetTimerNext, SleepNext;
    if a.SetTimer? {
      SetTimerOwned(s, a.w, a.id);
    } else if a.BeginSleep? {
      SleepOwned(s, a.w, a.ms, a.id);
    } else if a.GiveUp? || a.Wakened? {
      CancelOwned(s, a);
    } else if a.Expire? {
      ExpireOwned(s, a.probe);
    } else if a.NewTimer? || a.CancelTimer? || a.RefreshTimer? || a.ResetTimer? {
      UserOwned(s, a);
    } else {
      OtherOwned(s, a);
    }
  }

  lemma {:induction false} RunOwned(s: State, acts: seq<Action>)
    requires Owned(s)
    ensures Owned(Run(s, acts))
    decreases |acts|
  {
    hide Next, Enabled, Sound, Owned;
    if acts != [] {
      if Sound(s) && Enabled(s, acts[0]) {
        StepOwned(s, acts[0]);
      }
      RunOwned(Step(s, acts[0]), acts[1..]);
    }
  }

  /**
    In every run, careful or not: a call that is about to try, has come back from its wait, or is over has no pending
    timer, and one that waits has none but the last it armed.
   */
  lemma NoTimerLeft(s: State, acts: seq<Action>, f: nat, i: nat, id: nat)
    requires Start(s) && IsTimeout(Run(s, acts).timers, id)
    requires Run(s, acts).timers.all[id].cb.value.fiber == f && Run(s, acts).timers.all[id].cb.value.info == i
    ensures var t := Run(s, acts);
            f in t.prog && t.prog[f].Io? && t.prog[f].call.info == i && Armed(t.prog[f].at)
            && t.prog[f].call.timer == Some(id)
  {
    hide Run;
    RunOwned(s, acts);
    assert Arms(Run(s, acts).prog, Run(s, acts).timers.all[id].cb.value, id);
  }
}
