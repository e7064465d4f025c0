/** A waiting call is woken exactly when a step reaches its event, and what follows for timeouts. */
module RuntimeWakes {
  import opened Options
  import opened Tasks
  import opened Words
  import Sched
  import opened Flight
  import Timers
  import Events
  import opened Runtime
  import opened RuntimeInv
  import opened RuntimeSteps
  import opened RuntimeWaits
  import opened RuntimeRuns
  import opened RuntimeTheorems

  // ----- step by step

  lemma LogTail(s: State, t: State, e: Sched.Entry, f: nat)
    requires t.sched.log == s.sched.log + [e] && e.task != FiberTask(f)
    ensures Times(t.sched.log, f) == Times(s.sched.log, f)
  {
    TimesAppend(s.sched.log, e, f);
  }

  /** Nobody is armed or woken, and at most one task other than fiber `f` is logged. */
  predicate LogsOther(s: Sched.State, t: Sched.State, f: nat)
  {
    && t.armed == s.armed && t.wakes == s.wakes
    && (|| t.log == s.log
        || (|t.log| == |s.log| + 1 && t.log == s.log + [t.log[|s.log|]] && t.log[|s.log|].task != FiberTask(f)))
  }

  lemma SwapLog(s: Sched.State, a: Sched.Action, f: nat)
    requires Sched.Enabled(s, a) && (a.Pick? || a.Start?)
    ensures LogsOther(s, Sched.Next(s, a), f)
  {
    hide Sched.FirstEligible, Sched.Remove;
  }

  lemma SettleLog(s: Sched.State, w: nat, f: nat)
    requires Sched.Enabled(s, Sched.Settle(w)) && f in s.fibers && Blocked(s.fibers[f])
    ensures LogsOther(s, Sched.SettleStep(s, w), f)
  {}

  /** A scheduler step between hooks logs no blocked fiber. */
  lemma InternalLog(s: Sched.State, a: Sched.Action, f: nat)
    requires IsInternal(a) && Sched.Enabled(s, a) && f in s.fibers && Blocked(s.fibers[f])
    ensures LogsOther(s, Sched.Next(s, a), f)
  {
    hide Sched.PickStep, Sched.StartStep, Sched.SettleStep;
    if a.Pick? || a.Start? {
      SwapLog(s, a, f);
    } else if a.Settle? {
      SettleLog(s, a.w, f);
    }
  }

  lemma InternalSpares(s: State, a: Sched.Action, f: nat)
    requires Inv(s) && IsInternal(a) && Sched.Enabled(s.sched, a) && InWait(s, f)
    ensures Undisturbed(s, s.(sched := Sched.Next(s.sched, a)), f)
  {
    hide InvBut, Times, Sched.Next, Sched.Enabled;
    KnownWaits(s, f);
    InternalLog(s.sched, a, f);
    var t := s.(sched := Sched.Next(s.sched, a));
    if t.sched.log != s.sched.log {
      LogTail(s, t, t.sched.log[|s.sched.log|], f);
    }
  }

  lemma KnownWaits(s: State, f: nat)
    requires Inv(s) && InWait(s, f)
    ensures f in s.sched.fibers && Blocked(s.sched.fibers[f])
  {
    assert ProgAt(s, f);
  }

  lemma YieldSpares(s: State, w: nat, st: Sched.FiberState, f: nat)
    requires Sched.Enabled(s.sched, Sched.YieldWrite(w, st))
    ensures Undisturbed(s, s.(sched := Sched.YieldStep(s.sched, w, st)), f)
  {
    hide Times, Sched.Queued;
  }

  lemma ReadyWakes(s: State, fd: nat, ready: Events.Mask, ok: bool, f: nat)
    requires Inv(s) && fd < |s.io.ctxs| && Events.Dispatch(s.io, fd, ready, ok).Handled? && InWait(s, f)
    ensures var t := ReadyNext(s, fd, ready, ok);
            if Reaches(s, Ready(fd, ready, ok), s.prog[f].call) then Woken(s, t, f) else Undisturbed(s, t, f)
  {
    hide InvBut, Deliver, Times, Release;
    InvIo(s);
    WaitFacts(s, f);
    DeliverNone(s.sched);
    if !s.io.ctxs[fd].events.Meet(ready).None() && ok {
      MaskIsReleases(s, fd, ready);
      MaskWakes(s, fd, ready, f);
    }
  }

  lemma CloseWakes(s: State, fd: nat, ok: bool, f: nat)
    requires Inv(s) && InWait(s, f)
    ensures var t := CloseNext(s, fd, ok);
            if Reaches(s, CloseFd(fd, ok), s.prog[f].call) then Woken(s, t, f) else Undisturbed(s, t, f)
  {
    hide InvBut, Deliver, Times, Release;
    InvIo(s);
    WaitFacts(s, f);
    DeliverNone(s.sched);
    if fd < |s.io.ctxs| && !s.io.ctxs[fd].events.None() && ok {
      MaskIsReleases(s, fd, s.io.ctxs[fd].events);
      MaskWakes(s, fd, s.io.ctxs[fd].events, f);
    }
  }

  lemma CancelWakes(s: State, fd: nat, e: Event, ok: bool, f: nat)
    requires Inv(s) && InWait(s, f)
    ensures var c, t := s.prog[f].call, Release(s, fd, e, ok);
            if ok && fd == c.fd && e == c.ev then Woken(s, t, f) else Undisturbed(s, t, f)
  {
    hide InvBut, Times, Release;
    WaitFacts(s, f);
    if ok && fd == s.prog[f].call.fd && e == s.prog[f].call.ev {
      ReleaseWakes(s, f);
    } else {
      if ok {
        SparesElse(s, fd, e, f);
      } else {
        ReleaseSpares(s, fd, e, ok, f);
      }
    }
  }

  /** The state in which a timeout callback cancels its event. */
  ghost function Marked(s: State, w: nat, cb: Callback): State
    requires cb.IoTimeout? && Live(s.prog, cb) && Sched.Enabled(s.sched, Sched.YieldWrite(w, Sched.TERM))
  {
    s.(sched := Sched.YieldStep(s.sched, w, Sched.TERM),
       prog := s.prog[cb.fiber := s.prog[cb.fiber].(call := s.prog[cb.fiber].call.(cancelled := true))])
  }

  lemma MarkedKeeps(s: State, w: nat, cb: Callback)
    requires Inv(s) && cb.IoTimeout? && Live(s.prog, cb)
    requires w < |s.sched.workers| && s.sched.workers[w].pc.Running? && s.sched.workers[w].pc.e.task == CallTask(cb)
    ensures Inv(Marked(s, w, cb))
  {
    hide InvBut, Sched.YieldStep, Flying;
    RunFlies(s, w);
    RunsFree(s, w);
    YieldMoves(s, w, Sched.TERM);
    CancelledKeeps(s.(sched := Sched.YieldStep(s.sched, w, Sched.TERM)), cb.fiber);
  }

  lemma TimeoutWakes(s: State, w: nat, ok: bool, f: nat)
    requires Inv(s) && InWait(s, f) && w < |s.sched.workers| && s.sched.workers[w].pc.Running?
        && TimerTask(s.sched.workers[w].pc.e.task)
    requires s.sched.workers[w].pc.e.task.cb.IoTimeout?
    ensures var t := TimerNext(s, w, ok);
            if Reaches(s, RunTimer(w, ok), s.prog[f].call) then Woken(s, t, f) else Undisturbed(s, t, f)
  {
    hide InvBut, Sched.YieldStep, Times, Release;
    var cb := s.sched.workers[w].pc.e.task.cb;
    FireYield(s, w, cb, ok);
    YieldSpares(s, w, Sched.TERM, f);
    if Live(s.prog, cb) && !s.prog[cb.fiber].call.cancelled {
      MarkedKeeps(s, w, cb);
      CancelWakes(Marked(s, w, cb), cb.fd, cb.event, ok, f);
    }
  }

  lemma SleeperSpares(s: State, w: nat, ok: bool, f: nat)
    requires Inv(s) && InWait(s, f) && w < |s.sched.workers| && s.sched.workers[w].pc.Running?
        && TimerTask(s.sched.workers[w].pc.e.task)
    requires s.sched.workers[w].pc.e.task.cb.WakeFiber?
    ensures Undisturbed(s, TimerNext(s, w, ok), f)
  {
    hide InvBut, Sched.YieldStep, Times;
    var cb := s.sched.workers[w].pc.e.task.cb;
    FireYield(s, w, cb, ok);
    YieldSpares(s, w, Sched.TERM, f);
    RunFlies(s, w);
    var s1 := s.(sched := Sched.YieldStep(s.sched, w, Sched.TERM));
    LogTail(s1, Fire(s1, cb, ok), Sched.Entry(FiberTask(cb.fiber), -1), f);
  }

  lemma ArmSpares(s: State, w: nat, t: State, f: nat)
    requires Inv(s) && InCode(s, w) && !InHook(s, w, Yielding) && InWait(s, f)
    requires t.sched == s.sched || t.sched == ArmNow(s.sched, s.sched.workers[w].pc.f)
    ensures Undisturbed(s, t, f)
  {
    hide InvBut, Times;
    AtEase(s, w);
  }

  /**
    For every step and every call that waits: the step schedules its fiber, once, if it reaches the call's event;
    takes its wake-up away if it deletes the event; and otherwise leaves it waiting.
   */
  lemma WokenExactlyWhenReached(s: State, a: Action, f: nat)
    requires Inv(s) && Sound(s) && Enabled(s, a) && InWait(s, f)
    ensures var c, t := s.prog[f].call, Next(s, a);
            if Reaches(s, a, c) then Woken(s, t, f)
            else if Deletes(a, c) then f !in t.sched.armed && f in t.sched.dropped
                && Times(t.sched.log, f) == Times(s.sched.log, f)
            else Undisturbed(s, t, f)
  {
    hide InvBut, Sched.YieldStep, Times, Release, Timers.Inv, TimerNext, ReadyNext, CloseNext, DelNext, Reaches,
      RegisterNext, SleepNext, SetTimerNext;
    if a.Ready? || a.CloseFd? || a.CancelEv? || a.DelEv? || a.RunTimer? {
      EventWakes(s, a, f);
    } else {
      OthersSpare(s, a, f);
    }
  }

  lemma EventWakes(s: State, a: Action, f: nat)
    requires Inv(s) && Sound(s) && Enabled(s, a) && InWait(s, f)
    requires a.Ready? || a.CloseFd? || a.CancelEv? || a.DelEv? || a.RunTimer?
    ensures var c, t := s.prog[f].call, Next(s, a);
            if Reaches(s, a, c) then Woken(s, t, f)
            else if Deletes(a, c) then f !in t.sched.armed && f in t.sched.dropped
                && Times(t.sched.log, f) == Times(s.sched.log, f)
            else Undisturbed(s, t, f)
  {
    hide InvBut, Times, Release, Timers.Inv, TimerNext, ReadyNext, CloseNext, DelNext, Woken, Undisturbed;
    match a
    case Ready(fd, ready, ok) => ReadyWakes(s, fd, ready, ok, f);
    case CloseFd(fd, ok) => CloseWakes(s, fd, ok, f);
    case CancelEv(fd, e, ok) => CancelWakes(s, fd, e, ok, f);
    case DelEv(fd, e, ok) => DelDrops(s, fd, e, ok, f);
    case RunTimer(w, ok) =>
      if s.sched.workers[w].pc.e.task.cb.IoTimeout? {
        TimeoutWakes(s, w, ok, f);
      } else {
        SleeperSpares(s, w, ok, f);
      }
  }

  lemma OthersSpare(s: State, a: Action, f: nat)
    requires Inv(s) && Sound(s) && Enabled(s, a) && InWait(s, f)
    requires !(a.Ready? || a.CloseFd? || a.CancelEv? || a.DelEv? || a.RunTimer?)
    ensures !Reaches(s, a, s.prog[f].call) && !Deletes(a, s.prog[f].call) && Undisturbed(s, Next(s, a), f)
  {
    hide InvBut, Sched.YieldStep, Undisturbed, Timers.Inv, Sched.Next, Timers.AddTimer, Timers.Cancel, Timers.Refresh,
        Timers.Reset,
      Timers.ListExpired, Events.AddEvent;
    if a.Internal? {
      InternalSpares(s, a.a, f);
    } else if a.Yield? {
      YieldSpares(s, a.w, a.st, f);
    } else if a.Park? {
      ParkSpares(s, a.w, Next(s, a), f);
    } else if a.Register? || a.BeginSleep? {
      ArmSpares(s, a.w, Next(s, a), f);
    } else if a.HandOver? {
      CallSpares(s, Next(s, a), s.hands[a.i], f);
    } else {
      SameSpares(s, Next(s, a), f);
    }
  }

  lemma ParkSpares(s: State, w: nat, t: State, f: nat)
    requires Sched.Enabled(s.sched, Sched.YieldWrite(w, Sched.HOLD))
    requires t.sched == Sched.YieldStep(s.sched, w, Sched.HOLD)
    ensures Undisturbed(s, t, f)
  {
    hide Sched.YieldStep, Times;
    YieldSpares(s, w, Sched.HOLD, f);
  }

  lemma SameSpares(s: State, t: State, f: nat)
    requires t.sched == s.sched
    ensures Undisturbed(s, t, f)
  {}

  lemma CallSpares(s: State, t: State, cb: Callback, f: nat)
    requires t.sched == Sched.Enqueue(s.sched, Sched.Entry(CallTask(cb), -1))
    ensures Undisturbed(s, t, f)
  {
    LogTail(s, t, Sched.Entry(CallTask(cb), -1), f);
  }

  lemma DelDrops(s: State, fd: nat, e: Event, ok: bool, f: nat)
    requires Inv(s) && InWait(s, f)
    ensures var c, t := s.prog[f].call, DelNext(s, fd, e, ok);
            if ok && fd == c.fd && e == c.ev
            then f !in t.sched.armed && f in t.sched.dropped && Times(t.sched.log, f) == Times(s.sched.log, f)
            else Undisturbed(s, t, f)
  {
    hide InvBut, Times;
    WaitFacts(s, f);
    if fd < |s.io.ctxs| && s.io.ctxs[fd].Get(e).fiber == Some(f) {
      ElsewhereNot(s, fd, e, f);
    }
  }

  // ----- timeouts

  /**
    In every run, a call that reports a timeout has waited at least that long since its first wait, if the deadline
    fitted into 64 bits when it was last armed.
   */
  lemma TimedOutOnlyAfter(s: State, acts: seq<Action>, w: nat)
    requires Start(s) && AllCareful(s, acts) && InIo(Run(s, acts), w, Checking)
    ensures var t := Run(s, acts);
            var c := t.prog[t.sched.workers[w].pc.f].call;
            c.cancelled ==>
              && c.timeout.Some? && c.first.Some? && c.last.Some? && c.first.value <= c.last.value <= t.clock
              && (c.last.value + c.timeout.value < WORD ==> t.clock >= c.first.value + c.timeout.value)
  {
    hide Run;
    Reachable(s, acts);
    var t := Run(s, acts);
    assert ProgAt(t, t.sched.workers[w].pc.f);
  }

  /** A call's deadline is earlier than asked exactly when it does not fit into 64 bits, and then it is due at once. */
  lemma EarlyExactlyWhenWrapped(s: State, w: nat, id: nat)
    requires Inv(s) && Sound(s) && InIo(s, w, Arming) && id !in s.timers.all && s.clock < WORD
    requires s.prog[s.sched.workers[w].pc.f].call.timeout.Some?
    requires s.prog[s.sched.workers[w].pc.f].call.timeout.value < WORD
    ensures var f := s.sched.workers[w].pc.f;
            var t, ms := SetTimerNext(s, f, id), s.prog[f].call.timeout.value;
            && id in t.timers.all
            && (t.timers.all[id].next < s.clock + ms <==> s.clock + ms >= WORD)
            && (s.clock + ms >= WORD ==> t.timers.all[id].next <= t.clock)
  {
    hide InvBut, Timers.AddTimer, Timers.Inv;
    var f := s.sched.workers[w].pc.f;
    var c := s.prog[f].call;
    Timers.AddTimerKeeps(s.timers, id, c.timeout.value, IoTimeout(f, c.info, c.fd, c.ev), false, s.clock);
    if s.clock + c.timeout.value >= WORD {
      assert (s.clock + c.timeout.value) % WORD == s.clock + c.timeout.value - WORD;
    }
  }

  /** A step only continues calls, ends them, or begins one with a record of its own. */
  lemma RecordsAreNew(s: State, a: Action, f: nat)
    requires Sound(s) && Enabled(s, a)
    ensures var t := Next(s, a);
            && s.infos <= t.infos
            && (f in t.prog && t.prog[f].Io? ==>
                  || (f in s.prog && s.prog[f].Io? && t.prog[f].call.info == s.prog[f].call.info)
                  || t.prog[f].call.info == s.infos)
  {
    hide Sched.YieldStep, Deliver, Timers.Inv, Timers.AddTimer, Timers.Cancel, Events.AddEvent, Events.CancelEvent,
        Timers.ListExpired,
      Events.Dispatch, Events.CancelAll, Events.DelEvent, Timers.Refresh, Timers.Reset, Sched.Next, Sched.Enabled;
  }

  lemma {:induction false} StaysDead(s: State, acts: seq<Action>, cb: Callback)
    requires cb.IoTimeout? && cb.info < s.infos && !Live(s.prog, cb)
    ensures !Live(Run(s, acts).prog, cb)
    decreases |acts|
  {
    hide Next, Enabled, Sound;
    if acts != [] {
      if Sound(s) && Enabled(s, acts[0]) {
        RecordsAreNew(s, acts[0], cb.fiber);
      }
      StaysDead(Step(s, acts[0]), acts[1..], cb);
    }
  }

  /** The callback of a call that has ended changes nothing, however many calls have begun since. */
  lemma LeftoverIsHarmless(s: State, acts: seq<Action>, cb: Callback, ok: bool)
    requires cb.IoTimeout? && cb.info < s.infos && !Live(s.prog, cb)
    ensures Fire(Run(s, acts), cb, ok) == Run(s, acts)
  {
    StaysDead(s, acts, cb);
  }

  /** A callback on its way takes its own call's event exactly if that call is still waiting for it. */
  lemma TimeoutTakesOwnExactly(s: State, cb: Callback)
    requires Inv(s) && cb.IoTimeout? && InFlight(s, cb) > 0 && Live(s.prog, cb) && Registered(s, cb.fd, cb.event)
    ensures s.io.ctxs[cb.fd].Get(cb.event).fiber == Some(cb.fiber) <==> cb.fiber in s.sched.armed
  {
    hide SchedOk, Timers.Inv, Events.Inv, Flying;
    assert FlyAt(s, cb) && SourceAt(s, cb.fiber) && SlotAt(s, cb.fd, cb.event);
  }
}
