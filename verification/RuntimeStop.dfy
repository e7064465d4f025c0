/**
  Stopping.  The runtime reads the timers, then the pending count, then the scheduler, and other workers act between
  the reads; its answer leaves somebody waiting exactly if the wait was arranged after the read that would have seen it.
 */
module RuntimeStop {
  import opened Options
  import opened Tasks
  import opened Words
  import Sched
  import opened SchedCounts
  import SchedAsked
  import opened SchedApart
  import opened Flight
  import Timers
  import Events
  import opened Runtime
  import opened RuntimeInv
  import opened RuntimeRuns
  import opened RuntimeTheorems
  import opened RuntimeWakes

  // ----- the three reads

  /** The first read: the next deadline is the value that stands for none. */
  predicate ReadsNoTimer(s: State)
  {
    Timers.Known(s.timers) && Timers.GetNextTimer(s.timers, s.clock).1 == Timers.NEVER
  }

  /** All three reads, each in the state it is made in, let the runtime stop. */
  predicate Answers(s0: State, s1: State, s2: State)
  {
    ReadsNoTimer(s0) && s1.io.pending == 0 && Sched.Stopping(s2.sched)
  }

  /** The first read is right except at time zero, where the last deadline there is reads as none. */
  lemma NoTimersExactly(s: State)
    requires Inv(s)
    ensures ReadsNoTimer(s) <==>
              s.timers.order == [] ||
              (s.clock == 0 && s.timers.order[0] in s.timers.all
                  && s.timers.all[s.timers.order[0]].next == Timers.NEVER)
  {
    hide InvBut;
    TimerFacts(s);
    FrontFits(s);
  }

  lemma FrontFits(s: State)
    requires Inv(s)
    ensures s.timers.order != [] ==>
              s.timers.order[0] in s.timers.all && s.timers.all[s.timers.order[0]].next < WORD
  {
    if s.timers.order != [] {
      assert PendAt(s, s.timers.order[0]);
    }
  }

  lemma NothingRuns(s: Sched.State, f: nat)
    requires SchedOk(s) && Sched.Stopping(s)
    ensures forall cb :: Flying(s, cb) == 0
    ensures f in s.fibers ==> s.fibers[f] != Sched.EXEC
    ensures f in s.fibers && s.fibers[f] == Sched.HOLD ==> f in s.armed || f in s.dropped
  {
    hide Counted, Conserved, SchedCounts.InOrder, AllAccounted, WorkersOk, ApartInv;
    NoneBusy(s);
    forall cb ensures Flying(s, cb) == 0 {
      NothingHeld(s.workers, cb);
    }
    if f in s.fibers {
      StopIsSound(s, f);
    }
  }

  lemma NoneBusy(s: Sched.State)
    requires SchedOk(s) && Sched.Stopping(s)
    ensures forall w :: 0 <= w < |s.workers| ==> !IsActive(s.workers[w].pc)
  {
    NoneActive(s.workers);
  }

  lemma WaitersAreRegistered(io: Events.State)
    requires Events.Inv(io)
    ensures forall fd, e :: 0 <= fd < |io.ctxs| && io.ctxs[fd].Get(e).fiber.Some? ==> io.ctxs[fd].events.Has(e)
  {
    forall fd, e | 0 <= fd < |io.ctxs| && io.ctxs[fd].Get(e).fiber.Some? ensures io.ctxs[fd].events.Has(e) {
      assert io.ctxs[fd].Coherent();
    }
  }

  // ----- when a call came to wait

  /** The step registers the event a call of fiber `f` is to wait for. */
  predicate Arranges(s: State, a: Action, f: nat)
  {
    a.Register? && a.ok && Sound(s) && Enabled(s, a) && s.sched.workers[a.w].pc.f == f
  }

  /** The step takes the event a call of fiber `f` waits for. */
  predicate Undoes(s: State, a: Action, f: nat)
  {
    InWait(s, f) && Sound(s) && Enabled(s, a) && (Reaches(s, a, s.prog[f].call) || Deletes(a, s.prog[f].call))
  }

  /** A waiting call stays a call, and only registering makes one wait. */
  lemma KindStays(s: State, a: Action, f: nat)
    requires Sound(s) && Enabled(s, a) && f in s.prog && f in Next(s, a).prog
    ensures Next(s, a).prog[f].Io? <==> s.prog[f].Io?
    ensures a.Park? || a.EndSleep? || a.BeginSleep? || s.prog[f].Io? || Next(s, a).prog[f] == s.prog[f]
    ensures s.prog[f].Sleep? ==> Next(s, a).prog[f].timer == s.prog[f].timer
  {
    hide Sched.YieldStep, Deliver, Timers.Inv, Timers.AddTimer, Timers.Cancel, Events.AddEvent, Events.CancelEvent,
      Timers.ListExpired, Events.Dispatch, Events.CancelAll, Events.DelEvent, Timers.Refresh, Timers.Reset, Sched.Next,
      Sched.Enabled;
  }

  lemma WaitGoesOn(s: State, a: Action, f: nat)
    requires Inv(s) && Sound(s) && Enabled(s, a) && InWait(s, f)
    ensures InWait(Next(s, a), f) <==> !Undoes(s, a, f)
  {
    hide InvBut, Next, Enabled, Reaches, Deletes, Times, Careful;
    WokenExactlyWhenReached(s, a, f);
    if !Careful(s, a) {
      CarelessStays(s, a);
    } else if f in Next(s, a).sched.armed {
      CarefulKeeps(s, a);
      ArmedWaits(Next(s, a), f);
      KindStays(s, a, f);
    }
  }

  /** A step that is not careful puts nobody in or out of a hook. */
  lemma CarelessStays(s: State, a: Action)
    requires Sound(s) && Enabled(s, a) && !Careful(s, a)
    ensures Next(s, a).prog == s.prog
  {
    hide Sched.Next, TakesTooEarly, Events.CutsOff;
  }

  lemma ArmedWaits(s: State, f: nat)
    requires Inv(s) && f in s.sched.armed
    ensures Waits(s.prog, f)
  {
    assert SourceAt(s, f);
  }

  lemma {:induction false} DeliverArmed(s: Sched.State, tasks: seq<Task>)
    ensures Deliver(s, tasks).armed <= s.armed
    decreases |tasks|
  {
    if tasks != [] {
      DeliverArmed(Give(s, tasks[0]), tasks[1..]);
    }
  }

  lemma FireArmed(s: State, cb: Callback, ok: bool)
    requires !cb.User?
    ensures Fire(s, cb, ok).sched.armed <= s.sched.armed
  {
    hide Deliver;
    if cb.IoTimeout? {
      DeliverArmed(s.sched, Events.CancelEvent(s.io, cb.fd, cb.event, ok).2);
    }
  }

  lemma TimerArmed(s: State, w: nat, ok: bool)
    requires w < |s.sched.workers| && s.sched.workers[w].pc.Running? && TimerTask(s.sched.workers[w].pc.e.task)
    ensures TimerNext(s, w, ok).sched.armed <= s.sched.armed
  {
    hide Fire, Sched.Queued;
    var cb := s.sched.workers[w].pc.e.task.cb;
    FireKeepsWorkers(s, cb, ok);
    FireArmed(s, cb, ok);
  }

  lemma ReleaseArmed(s: State, fd: nat, e: Event, ok: bool)
    ensures Release(s, fd, e, ok).sched.armed <= s.sched.armed
  {
    hide Deliver;
    DeliverArmed(s.sched, Events.CancelEvent(s.io, fd, e, ok).2);
  }

  lemma YieldArmed(s: Sched.State, w: nat, st: Sched.FiberState)
    requires w < |s.workers| && s.workers[w].pc.Running? && Sched.InSwap(st)
    ensures Sched.YieldStep(s, w, st).armed == s.armed
  {
    hide Sched.Queued;
  }

  lemma InternalArmed(s: Sched.State, a: Sched.Action)
    requires IsInternal(a) && Sched.Enabled(s, a)
    ensures Sched.Next(s, a).armed == s.armed
  {}

  /** Taking events and running callbacks only schedules. */
  lemma EventArmed(s: State, a: Action)
    requires Sound(s) && Enabled(s, a) && (a.Ready? || a.CloseFd? || a.CancelEv? || a.DelEv? || a.RunTimer?)
    ensures Next(s, a).sched.armed <= s.sched.armed
  {
    hide Deliver, TimerNext, Release, Timers.Inv, Events.Dispatch, Events.CancelAll, Events.DelEvent;
    match a
    case Ready(fd, ready, ok) => DeliverArmed(s.sched, Events.Dispatch(s.io, fd, ready, ok).tasks);
    case CloseFd(fd, ok) => DeliverArmed(s.sched, Events.CancelAll(s.io, fd, ok).2);
    case CancelEv(fd, e, ok) => ReleaseArmed(s, fd, e, ok);
    case DelEv(fd, e, ok) =>
    case RunTimer(w, ok) => TimerArmed(s, w, ok);
  }

  /** Only registering and lying down make a fiber one that somebody is to schedule. */
  lemma ArmedGrows(s: State, a: Action, f: nat)
    requires Sound(s) && Enabled(s, a) && f !in s.sched.armed && f in Next(s, a).sched.armed
    ensures (a.Register? && a.ok) || a.BeginSleep?
    ensures s.sched.workers[a.w].pc.f == f
  {
    hide Sched.YieldStep, Deliver, TimerNext, Release, ReadyNext, CloseNext, DelNext, SetTimerNext, CancelMaybe,
      Timers.Inv, Timers.AddTimer, Timers.Cancel, Timers.Refresh, Timers.Reset, Timers.ListExpired, Events.AddEvent,
      Sched.Next, Sched.Enabled;
    if a.Ready? || a.CloseFd? || a.CancelEv? || a.DelEv? || a.RunTimer? {
      EventArmed(s, a);
    } else if a.Internal? {
      InternalArmed(s.sched, a.a);
    } else if a.Yield? {
      YieldArmed(s.sched, a.w, a.st);
    } else if a.Park? {
      YieldArmed(s.sched, a.w, Sched.HOLD);
    } else if a.SetTimer? {
      SetTimerArmed(s, s.sched.workers[a.w].pc.f, a.id);
    }
  }

  lemma SetTimerArmed(s: State, f: nat, id: nat)
    requires Sound(s) && f in s.prog && s.prog[f].Io? && id !in s.timers.all
    ensures SetTimerNext(s, f, id).sched == s.sched
  {}

  lemma WaitBegins(s: State, a: Action, f: nat)
    requires Inv(s) && Sound(s) && Enabled(s, a) && !InWait(s, f)
    ensures InWait(Next(s, a), f) <==> Arranges(s, a, f)
  {
    hide InvBut, Sound, Timers.AddTimer, Events.AddEvent;
    if Arranges(s, a, f) {
      assert InWait(Next(s, a), f);
    } else if f in Next(s, a).sched.armed && f in Next(s, a).prog && Next(s, a).prog[f].Io? {
      NotArranged(s, a, f);
    }
  }

  /** A fiber that somebody is to schedule and that is in no call does not get into one. */
  lemma NotArranged(s: State, a: Action, f: nat)
    requires Inv(s) && Sound(s) && Enabled(s, a) && !InWait(s, f) && !Arranges(s, a, f)
    requires f in Next(s, a).prog
    ensures !(f in Next(s, a).sched.armed && Next(s, a).prog[f].Io?)
  {
    hide InvBut, Next, Enabled, Sound;
    if f in Next(s, a).sched.armed {
      if f in s.sched.armed {
        ArmedWaits(s, f);
        KindStays(s, a, f);
      } else {
        ArmedGrows(s, a, f);
        LiesDown(s, a);
      }
    }
  }

  lemma LiesDown(s: State, a: Action)
    requires Sound(s) && Enabled(s, a)
    ensures a.BeginSleep? ==> var f := s.sched.workers[a.w].pc.f; f in Next(s, a).prog && Next(s, a).prog[f].Sleep?
  {}

  /** From one state to the next, for every fiber. */
  lemma WaitStep(s: State, a: Action, f: nat)
    requires Inv(s)
    ensures InWait(Step(s, a), f) <==> if InWait(s, f) then !Undoes(s, a, f) else Arranges(s, a, f)
  {
    hide InvBut, Next, Enabled, Reaches, Deletes;
    InvIsSound(s, {});
    if Enabled(s, a) {
      if InWait(s, f) {
        WaitGoesOn(s, a, f);
      } else {
        WaitBegins(s, a, f);
      }
    }
  }

  // ----- when a fiber came to sleep

  /** The timer holds the callback that wakes `f`. */
  predicate Token(t: Timers.State, id: nat, f: nat)
  {
    id in t.all && t.all[id].cb == Some(WakeFiber(f))
  }

  /** A sleeping fiber's timer is still in the set. */
  predicate Sleeps(s: State, f: nat)
  {
    f in s.prog && s.prog[f].Sleep? && Token(s.timers, s.prog[f].timer, f)
  }

  /** The step puts fiber `f` to sleep. */
  predicate LaysDown(s: State, a: Action, f: nat)
  {
    a.BeginSleep? && Sound(s) && Enabled(s, a) && s.sched.workers[a.w].pc.f == f
  }

  /** The step takes the timer of fiber `f` out of the set. */
  predicate Rings(s: State, a: Action, f: nat)
  {
    a.Expire? && Sound(s) && Enabled(s, a) && Sleeps(s, f) && s.timers.all[s.prog[f].timer].next <= s.clock
  }

  lemma CancelTokens(t: Timers.State, id: nat, i: nat, f: nat)
    requires Timers.Inv(t) && id in t.all && !(t.all[id].cb.Some? && t.all[id].cb.value.WakeFiber?)
    ensures Token(Timers.Cancel(t, id).0, i, f) <==> Token(t, i, f)
  {
    hide Timers.Inv, Timers.Cancel;
    Timers.CancelKeeps(t, id);
  }

  lemma OwnTokens(s: State, g: nat, i: nat, f: nat)
    requires Inv(s) && g in s.prog && s.prog[g].Io?
    ensures Sound(s) && (Token(CancelMaybe(s.timers, s.prog[g].call.timer), i, f) <==> Token(s.timers, i, f))
  {
    hide SchedOk, Events.Inv, SlotAt, PendAt, FlyAt, SourceAt, WakeAt, RunAt, Timers.Cancel, Token;
    InvIsSound(s, {});
    assert ProgAt(s, g);
    if s.prog[g].call.timer.Some? {
      CancelTokens(s.timers, s.prog[g].call.timer.value, i, f);
    }
  }

  lemma ExpireTokens(s: State, probe: nat, i: nat, f: nat)
    requires Inv(s)
    ensures Token(Timers.ListExpired(s.timers, s.clock, probe).0, i, f) <==>
              Token(s.timers, i, f) && !(s.timers.all[i].next <= s.clock)
  {
    hide SchedOk, Events.Inv, Timers.ListExpired, Flying;
    ExpireEffect(s, probe);
    if Token(s.timers, i, f) {
      assert PendAt(s, i);
    }
  }

  lemma UserTokens(s: State, a: Action, i: nat, f: nat)
    requires Inv(s) && Sound(s) && Enabled(s, a)
    requires a.NewTimer? || a.CancelTimer? || a.RefreshTimer? || a.ResetTimer?
    ensures Token(Next(s, a).timers, i, f) <==> Token(s.timers, i, f)
  {
    hide InvBut, Timers.Inv, Timers.AddTimer, Timers.Cancel, Timers.Refresh, Timers.Reset;
    if a.NewTimer? {
      Timers.AddTimerKeeps(s.timers, a.id, a.ms, User(a.n), a.recurring, s.clock);
    } else if a.CancelTimer? {
      CancelTokens(s.timers, a.id, i, f);
    } else if a.RefreshTimer? {
      Timers.RefreshKeeps(s.timers, a.id, s.clock);
    } else {
      Timers.ResetKeeps(s.timers, a.id, a.ms, a.fromNow, s.clock);
    }
  }

  lemma HookTokens(s: State, a: Action, i: nat, f: nat)
    requires Inv(s) && Sound(s) && Enabled(s, a) && (a.SetTimer? || a.GiveUp? || a.Wakened? || a.BeginSleep?)
    ensures Token(Next(s, a).timers, i, f) <==> Token(s.timers, i, f) || (LaysDown(s, a, f) && a.id == i)
  {
    hide InvBut, Timers.Inv, Timers.AddTimer, Timers.Cancel, CancelMaybe;
    var g := s.sched.workers[a.w].pc.f;
    if a.SetTimer? {
      var c := s.prog[g].call;
      if c.timeout.Some? {
        Timers.AddTimerKeeps(s.timers, a.id, c.timeout.value, IoTimeout(g, c.info, c.fd, c.ev), false, s.clock);
      }
    } else if a.BeginSleep? {
      Timers.AddTimerKeeps(s.timers, a.id, a.ms, WakeFiber(g), false, s.clock);
    } else {
      OwnTokens(s, g, i, f);
    }
  }

  /** A token enters the set by lying down and leaves it when it is due and timers are expired. */
  lemma TokenStep(s: State, a: Action, i: nat, f: nat)
    requires Inv(s) && Sound(s) && Enabled(s, a)
    ensures Token(Next(s, a).timers, i, f) <==>
              || (Token(s.timers, i, f) && !(a.Expire? && s.timers.all[i].next <= s.clock))
              || (LaysDown(s, a, f) && a.id == i)
  {
    hide InvBut, Timers.Inv, Token, LaysDown;
    if a.NewTimer? || a.CancelTimer? || a.RefreshTimer? || a.ResetTimer? {
      UserTokens(s, a, i, f);
      NoBed(s, a, f);
    } else if a.SetTimer? || a.GiveUp? || a.Wakened? || a.BeginSleep? {
      HookTokens(s, a, i, f);
    } else if a.Expire? {
      ExpireTokens(s, a.probe, i, f);
      NoBed(s, a, f);
    } else {
      OtherTokens(s, a);
      NoBed(s, a, f);
    }
  }

  lemma NoBed(s: State, a: Action, f: nat)
    requires !a.BeginSleep?
    ensures !LaysDown(s, a, f)
  {}

  lemma OtherTokens(s: State, a: Action)
    requires Sound(s) && Enabled(s, a)
    requires !(a.NewTimer? || a.CancelTimer? || a.RefreshTimer? || a.ResetTimer? || a.SetTimer? || a.GiveUp?
        || a.Wakened?)
    requires !(a.BeginSleep? || a.Expire?)
    ensures Next(s, a).timers == s.timers
  {
    hide Sched.YieldStep, Deliver, Timers.Inv, Events.AddEvent, Events.CancelEvent, Events.Dispatch, Events.CancelAll,
      Events.DelEvent, Sched.Next, Sched.Enabled;
  }

  /** A sleeper whose timer is in the set stays in its hook. */
  lemma StaysAsleep(s: State, a: Action, f: nat)
    requires Inv(s) && Sound(s) && Enabled(s, a) && Sleeps(s, f)
    ensures f in Next(s, a).prog
  {
    hide SchedOk, Events.Inv, SlotAt, FlyAt, SourceAt, WakeAt, Sched.Queued, Timers.Inv;
    assert PendAt(s, s.prog[f].timer);
    if a.EndSleep? {
      assert RunAt(s, a.w);
    }
    OnlyLeaving(s, a, f);
  }

  lemma OnlyLeaving(s: State, a: Action, f: nat)
    requires Sound(s) && Enabled(s, a) && f in s.prog && s.prog[f].Sleep?
    ensures f in Next(s, a).prog || (a.EndSleep? && s.sched.workers[a.w].pc.f == f)
  {
    hide Sched.YieldStep, Deliver, Timers.Inv, Timers.AddTimer, Timers.Cancel, Events.AddEvent, Events.CancelEvent,
      Timers.ListExpired, Events.Dispatch, Events.CancelAll, Events.DelEvent, Timers.Refresh, Timers.Reset, Sched.Next,
      Sched.Enabled;
  }

  /** Only lying down brings a fiber into a sleep. */
  lemma OnlyBed(s: State, a: Action, f: nat)
    requires Sound(s) && Enabled(s, a) && f !in s.prog && f in Next(s, a).prog && Next(s, a).prog[f].Sleep?
    ensures LaysDown(s, a, f)
  {
    hide Sched.YieldStep, Deliver, Timers.Inv, Timers.AddTimer, Timers.Cancel, Events.AddEvent, Events.CancelEvent,
      Timers.ListExpired, Events.Dispatch, Events.CancelAll, Events.DelEvent, Timers.Refresh, Timers.Reset, Sched.Next,
      Sched.Enabled;
  }

  lemma SleepStep(s: State, a: Action, f: nat)
    requires Inv(s)
    ensures Sleeps(Step(s, a), f) <==> if Sleeps(s, f) then !Rings(s, a, f) else LaysDown(s, a, f)
  {
    hide InvBut, Next, Enabled, Token, Sound;
    InvIsSound(s, {});
    if Enabled(s, a) {
      if Sleeps(s, f) {
        StaysAsleep(s, a, f);
        KindStays(s, a, f);
        TokenStep(s, a, s.prog[f].timer, f);
        NotAgain(s, a, f);
      } else if LaysDown(s, a, f) {
        BedMade(s, a, f);
        TokenStep(s, a, a.id, f);
      } else if f in Next(s, a).prog && Next(s, a).prog[f].Sleep? {
        if f in s.prog {
          KindStays(s, a, f);
        } else {
          OnlyBed(s, a, f);
        }
        TokenStep(s, a, Next(s, a).prog[f].timer, f);
      }
    }
  }

  lemma NotAgain(s: State, a: Action, f: nat)
    requires f in s.prog
    ensures !LaysDown(s, a, f)
  {}

  lemma BedMade(s: State, a: Action, f: nat)
    requires Sound(s) && Enabled(s, a) && LaysDown(s, a, f)
    ensures f in Next(s, a).prog && Next(s, a).prog[f] == Sleep(a.id, Yielding)
  {}

  // ----- over runs

  /** The call waits, and no step of the run takes its event. */
  ghost predicate StillWaits(s: State, acts: seq<Action>, f: nat)
    decreases |acts|
  {
    InWait(s, f) && (acts == [] || (!Undoes(s, acts[0], f) && StillWaits(Step(s, acts[0]), acts[1..], f)))
  }

  /** Some step of the run registers the call's event, and no later one takes it. */
  ghost predicate LeftWaiting(s: State, acts: seq<Action>, f: nat)
    decreases |acts|
  {
    acts != [] &&
    (|| (!InWait(s, f) && Arranges(s, acts[0], f) && StillWaits(Step(s, acts[0]), acts[1..], f))
     || LeftWaiting(Step(s, acts[0]), acts[1..], f))
  }

  /** Where a call that waits at the end of a run comes from. */
  lemma {:induction false} WaitHistory(s: State, acts: seq<Action>, f: nat)
    requires Inv(s) && AllCareful(s, acts)
    ensures InWait(Run(s, acts), f) <==> StillWaits(s, acts, f) || LeftWaiting(s, acts, f)
    decreases |acts|
  {
    hide InvBut, Step, Arranges, Undoes, InWait, Enabled, Careful, RuntimeTheorems.InOrder;
    if acts != [] {
      WaitStep(s, acts[0], f);
      RuntimeTheorems.StepKeeps(s, acts[0]);
      WaitHistory(Step(s, acts[0]), acts[1..], f);
    }
  }

  ghost predicate StillSleeps(s: State, acts: seq<Action>, f: nat)
    decreases |acts|
  {
    Sleeps(s, f) && (acts == [] || (!Rings(s, acts[0], f) && StillSleeps(Step(s, acts[0]), acts[1..], f)))
  }

  /** Some step of the run puts the fiber to sleep, and no later one takes its timer out. */
  ghost predicate LeftSleeping(s: State, acts: seq<Action>, f: nat)
    decreases |acts|
  {
    acts != [] &&
    (|| (!Sleeps(s, f) && LaysDown(s, acts[0], f) && StillSleeps(Step(s, acts[0]), acts[1..], f))
     || LeftSleeping(Step(s, acts[0]), acts[1..], f))
  }

  lemma {:induction false} SleepHistory(s: State, acts: seq<Action>, f: nat)
    requires Inv(s) && AllCareful(s, acts)
    ensures Sleeps(Run(s, acts), f) <==> StillSleeps(s, acts, f) || LeftSleeping(s, acts, f)
    decreases |acts|
  {
    hide InvBut, Step, LaysDown, Rings, Sleeps, Enabled, Careful, RuntimeTheorems.InOrder;
    if acts != [] {
      SleepStep(s, acts[0], f);
      RuntimeTheorems.StepKeeps(s, acts[0]);
      SleepHistory(Step(s, acts[0]), acts[1..], f);
    }
  }

  lemma StillFirst(s: State, acts: seq<Action>, f: nat)
    ensures StillWaits(s, acts, f) ==> InWait(s, f)
    ensures StillSleeps(s, acts, f) ==> Sleeps(s, f)
  {}

  lemma {:induction false} RunConcat(s: State, a: seq<Action>, b: seq<Action>)
    ensures Run(s, a + b) == Run(Run(s, a), b)
    decreases |a|
  {
    hide Step;
    if a == [] {
      assert a + b == b;
    } else {
      assert (a + b)[0] == a[0] && (a + b)[1..] == a[1..] + b;
      RunConcat(Step(s, a[0]), a[1..], b);
    }
  }

  lemma {:induction false} CarefulConcat(s: State, a: seq<Action>, b: seq<Action>)
    ensures AllCareful(s, a + b) <==> AllCareful(s, a) && AllCareful(Run(s, a), b)
    decreases |a|
  {
    hide Step, Enabled, Careful;
    if a == [] {
      assert a + b == b;
    } else {
      assert (a + b)[0] == a[0] && (a + b)[1..] == a[1..] + b;
      CarefulConcat(Step(s, a[0]), a[1..], b);
    }
  }

  // ----- the answer

  /** With no work left, a fiber somebody is to schedule waits for an event, sleeps, or is in a poller's hands. */
  lemma ArmedAtRest(s: State, f: nat)
    requires Inv(s) && Sched.Stopping(s.sched)
    ensures f in s.sched.armed <==> InWait(s, f) || Sleeps(s, f) || WakeFiber(f) in s.hands
    ensures f in s.sched.fibers ==> s.sched.fibers[f] != Sched.EXEC
    ensures f in s.sched.fibers && s.sched.fibers[f] == Sched.HOLD ==> f in s.sched.armed || f in s.sched.dropped
  {
    hide SchedOk, Timers.Inv, Events.Inv, Flying, Sched.Queued;
    NothingRuns(s.sched, f);
    assert SourceAt(s, f) && FlyAt(s, WakeFiber(f));
    if Sleeps(s, f) {
      assert PendAt(s, s.prog[f].timer);
    }
  }

  /** With nothing pending no call waits. */
  lemma NobodyWaits(s: State, f: nat)
    requires Inv(s) && s.io.pending == 0
    ensures !InWait(s, f)
  {
    hide SchedOk, Timers.Inv, Flying, Sched.Queued;
    Events.PendingNeverUnderflows(s.io);
    assert SourceAt(s, f);
    WaitersAreRegistered(s.io);
  }

  /** With no timer to be read no fiber sleeps, except at time zero. */
  lemma NobodySleeps(s: State, f: nat)
    requires Inv(s) && ReadsNoTimer(s) && s.clock > 0
    ensures !Sleeps(s, f)
  {
    hide InvBut;
    NoTimersExactly(s);
    TimerFacts(s);
  }

  /**
    Over every run `a`, first read, run `b`, second read, run `c`, third read: if the answer is to stop, nothing
    executes, and a fiber is still to be scheduled exactly if a poller holds its wake-up, or its event was registered
    after the second read and not taken since, or it lay down after the first and its timer is still set, or it slept
    before at time zero until the end of time.
   */
  lemma StopAnswerExactly(s: State, a: seq<Action>, b: seq<Action>, c: seq<Action>, f: nat)
    requires Start(s) && AllCareful(s, a + b + c) && Answers(Run(s, a), Run(s, a + b), Run(s, a + b + c))
    ensures var s0, s1, s2 := Run(s, a), Run(s, a + b), Run(s, a + b + c);
            && (f in s2.sched.armed <==>
                  || WakeFiber(f) in s2.hands || LeftWaiting(s1, c, f) || LeftSleeping(s0, b + c, f)
                  || (s0.clock == 0 && StillSleeps(s0, b + c, f)))
            && (f in s2.sched.fibers ==> s2.sched.fibers[f] != Sched.EXEC)
            && (f in s2.sched.fibers && s2.sched.fibers[f] == Sched.HOLD ==>
              f in s2.sched.armed || f in s2.sched.dropped)
  {
    hide InvBut, Run, AllCareful, Start, StillWaits, LeftWaiting, StillSleeps, LeftSleeping, InWait, Sleeps,
      ReadsNoTimer;
    var s0, s1, s2 := Run(s, a), Run(s, a + b), Run(s, a + b + c);
    assert a + b + c == a + (b + c);
    RunConcat(s, a + b, c);
    RunConcat(s, a, b + c);
    CarefulConcat(s, a + b, c);
    CarefulConcat(s, a, b + c);
    CarefulConcat(s, a, b);
    Reachable(s, a);
    Reachable(s, a + b);
    Reachable(s, a + b + c);
    ArmedAtRest(s2, f);
    NobodyWaits(s1, f);
    WaitHistory(s1, c, f);
    SleepHistory(s0, b + c, f);
    StillFirst(s1, c, f);
    StillFirst(s0, b + c, f);
    if s0.clock > 0 {
      NobodySleeps(s0, f);
    }
  }

  // ----- when the answer is to stop

  predicate SameFlags(s: Sched.State, t: Sched.State)
  {
    t.autoStop == s.autoStop && t.stopping == s.stopping
  }

  lemma {:induction false} DeliverFlags(s: Sched.State, tasks: seq<Task>)
    ensures SameFlags(s, Deliver(s, tasks))
    decreases |tasks|
  {
    if tasks != [] {
      DeliverFlags(Give(s, tasks[0]), tasks[1..]);
    }
  }

  lemma FireFlags(s: State, w: nat, ok: bool)
    requires w < |s.sched.workers| && s.sched.workers[w].pc.Running? && TimerTask(s.sched.workers[w].pc.e.task)
    ensures SameFlags(s.sched, TimerNext(s, w, ok).sched)
  {
    hide Deliver, Sched.Queued;
    var cb := s.sched.workers[w].pc.e.task.cb;
    FireKeepsWorkers(s, cb, ok);
    if cb.IoTimeout? {
      DeliverFlags(s.sched, Events.CancelEvent(s.io, cb.fd, cb.event, ok).2);
    }
  }

  lemma EventFlags(s: State, a: Action)
    requires Sound(s) && Enabled(s, a) && (a.Ready? || a.CloseFd? || a.CancelEv? || a.RunTimer?)
    ensures SameFlags(s.sched, Next(s, a).sched)
  {
    hide Deliver, TimerNext, Timers.Inv, Events.Dispatch, Events.CancelAll, Events.CancelEvent;
    match a
    case Ready(fd, ready, ok) => DeliverFlags(s.sched, Events.Dispatch(s.io, fd, ready, ok).tasks);
    case CloseFd(fd, ok) => DeliverFlags(s.sched, Events.CancelAll(s.io, fd, ok).2);
    case CancelEv(fd, e, ok) => DeliverFlags(s.sched, Events.CancelEvent(s.io, fd, e, ok).2);
    case RunTimer(w, ok) => FireFlags(s, w, ok);
  }

  lemma YieldFlags(s: Sched.State, w: nat, st: Sched.FiberState)
    requires w < |s.workers| && s.workers[w].pc.Running? && Sched.InSwap(st)
    ensures SameFlags(s, Sched.YieldStep(s, w, st))
  {
    hide Sched.Queued;
  }

  /** Only the request to stop raises the flags. */
  lemma RuntimeFlags(s: State, a: Action)
    requires Sound(s) && Enabled(s, a)
    ensures var t := Next(s, a).sched;
            if a == Internal(Sched.Stop) then t.autoStop && t.stopping else SameFlags(s.sched, t)
  {
    hide Deliver, TimerNext, Release, ReadyNext, CloseNext, SetTimerNext, CancelMaybe, Timers.Inv, Timers.AddTimer,
      Timers.Cancel, Timers.Refresh, Timers.Reset, Timers.ListExpired, Events.AddEvent, Events.DelEvent, Sched.Next,
      Sched.Enabled, Sched.YieldStep;
    if a.Ready? || a.CloseFd? || a.CancelEv? || a.RunTimer? {
      EventFlags(s, a);
    } else if a.Yield? {
      YieldFlags(s.sched, a.w, a.st);
    } else if a.Park? {
      YieldFlags(s.sched, a.w, Sched.HOLD);
    } else if a.Internal? {
      SchedAsked.StepFlags(s.sched, a.a);
    } else if a.SetTimer? {
      SetTimerArmed(s, s.sched.workers[a.w].pc.f, a.id);
    }
  }

  lemma {:induction false} FlagsAlong(s: State, acts: seq<Action>)
    requires Inv(s) && AllCareful(s, acts)
    ensures var t := Run(s, acts).sched;
            t.autoStop && t.stopping <==>
              (s.sched.autoStop && s.sched.stopping) || exists i :: 0 <= i < |acts| && acts[i] == Internal(Sched.Stop)
    decreases |acts|
  {
    hide InvBut, Next, Careful, RuntimeTheorems.InOrder, Sound;
    if acts != [] {
      InvIsSound(s, {});
      if Enabled(s, acts[0]) {
        RuntimeFlags(s, acts[0]);
      }
      RuntimeTheorems.StepKeeps(s, acts[0]);
      StopIsPossible(s);
      FlagsAlong(Step(s, acts[0]), acts[1..]);
      if i :| 0 <= i < |acts| && acts[i] == Internal(Sched.Stop) && i > 0 {
        assert acts[1..][i - 1] == Internal(Sched.Stop);
      }
    }
  }

  lemma StopIsPossible(s: State)
    ensures Enabled(s, Internal(Sched.Stop))
  {}

  /**
    Over every run of a new runtime that nobody has asked to stop, with the three reads where they are: the answer is
    to stop exactly if there was no timer at the first read, or one for the last moment at time zero, nothing was
    registered at the second, and by the third it was asked to stop, every task had been taken and no worker was
    between picking one and counting it down.
   */
  lemma AnswersExactly(s: State, a: seq<Action>, b: seq<Action>, c: seq<Action>)
    requires Start(s) && !s.sched.autoStop && AllCareful(s, a + b + c)
    ensures var s0, s1, s2 := Run(s, a), Run(s, a + b), Run(s, a + b + c);
            Answers(s0, s1, s2) <==>
              && (|| s0.timers.order == []
                  || (s0.clock == 0 && s0.timers.order[0] in s0.timers.all
                      && s0.timers.all[s0.timers.order[0]].next == Timers.NEVER))
              && (forall fd :: 0 <= fd < |s1.io.ctxs| ==> s1.io.ctxs[fd].events.None())
              && (exists i :: 0 <= i < |a + b + c| && (a + b + c)[i] == Internal(Sched.Stop))
              && multiset(s2.sched.log) == multiset(s2.sched.taken)
              && (forall w :: 0 <= w < |s2.sched.workers| ==> !SchedAsked.AtWork(s2.sched.workers[w].pc))
  {
    hide InvBut, Run, AllCareful, Start, ReadsNoTimer, Sched.Stopping, FineInv;
    var s0, s1, s2 := Run(s, a), Run(s, a + b), Run(s, a + b + c);
    Pieces(s, a, b, c);
    NoTimersExactly(s0);
    PendingAt(s1);
    StartIsGood(s);
    NotAsked(s);
    FlagsAlong(s, a + b + c);
    FineAt(s2);
    SchedAsked.StoppingExactly(s2.sched);
  }

  lemma NotAsked(s: State)
    requires Start(s) && !s.sched.autoStop
    ensures !(s.sched.autoStop && s.sched.stopping)
  {}

  lemma PendingAt(s: State)
    requires Inv(s)
    ensures s.io.pending == 0 <==> forall fd :: 0 <= fd < |s.io.ctxs| ==> s.io.ctxs[fd].events.None()
  {
    hide SchedOk, Timers.Inv;
    Events.PendingNeverUnderflows(s.io);
  }

  lemma FineAt(s: State)
    requires Inv(s)
    ensures FineInv(s.sched)
  {}

  /** The states at the three reads are good ones. */
  lemma Pieces(s: State, a: seq<Action>, b: seq<Action>, c: seq<Action>)
    requires Start(s) && AllCareful(s, a + b + c)
    ensures Inv(Run(s, a)) && Inv(Run(s, a + b)) && Inv(Run(s, a + b + c))
  {
    hide InvBut, Run, AllCareful, Start;
    assert a + b + c == a + (b + c);
    CarefulConcat(s, a + b, c);
    CarefulConcat(s, a, b + c);
    Reachable(s, a);
    Reachable(s, a + b);
    Reachable(s, a + b + c);
  }

  // ----- a window in which nothing is arranged

  predicate AddsEvent(a: Action)
  {
    (a.Register? && a.ok) || (a.Watch? && a.ok)
  }

  predicate AddsTimer(a: Action)
  {
    a.SetTimer? || a.BeginSleep? || a.NewTimer?
  }

  lemma {:induction false} NoneArranged(s: State, c: seq<Action>, f: nat)
    requires forall i :: 0 <= i < |c| ==> !AddsEvent(c[i])
    ensures !LeftWaiting(s, c, f)
    decreases |c|
  {
    hide Step, StillWaits, InWait;
    if c != [] {
      assert !AddsEvent(c[0]);
      NoneArranged(Step(s, c[0]), c[1..], f);
    }
  }

  lemma {:induction false} NoneLaidDown(s: State, c: seq<Action>, f: nat)
    requires forall i :: 0 <= i < |c| ==> !AddsTimer(c[i])
    ensures !LeftSleeping(s, c, f)
    decreases |c|
  {
    hide Step, StillSleeps, Sleeps;
    if c != [] {
      assert !AddsTimer(c[0]);
      NoneLaidDown(Step(s, c[0]), c[1..], f);
    }
  }

  /**
    If nothing was registered after the second read and no timer set after the first, the answer is right: a parked
    fiber was dropped, or sleeps and its wake-up is in the hands of a poller that has not scheduled it yet.
   */
  lemma StoppingIsSound(s: State, a: seq<Action>, b: seq<Action>, c: seq<Action>, f: nat)
    requires Start(s) && AllCareful(s, a + b + c) && Answers(Run(s, a), Run(s, a + b), Run(s, a + b + c))
    requires Run(s, a).clock > 0
    requires forall i :: 0 <= i < |c| ==> !AddsEvent(c[i])
    requires forall i :: 0 <= i < |b + c| ==> !AddsTimer((b + c)[i])
    ensures var t := Run(s, a + b + c);
            && (f in t.sched.fibers ==> t.sched.fibers[f] != Sched.EXEC)
            && (f in t.sched.armed <==> WakeFiber(f) in t.hands)
            && (f in t.sched.fibers && t.sched.fibers[f] == Sched.HOLD ==>
              f in t.sched.dropped || WakeFiber(f) in t.hands)
  {
    hide Run, AllCareful, Start, Answers, AddsEvent, AddsTimer;
    StopAnswerExactly(s, a, b, c, f);
    NoneArranged(Run(s, a + b), c, f);
    NoneLaidDown(Run(s, a), b + c, f);
  }
}
