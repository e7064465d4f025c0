/** What holds in every run of scheduler, fibers, timers and events together. */
module RuntimeTheorems {
  import opened Options
  import opened Tasks
  import Sched
  import opened SchedCounts
  import opened SchedApart
  import opened SchedSingle
  import opened Flight
  import Timers
  import Events
  import opened Runtime
  import opened RuntimeInv
  import opened RuntimeSteps
  import opened RuntimeWaits
  import opened RuntimeRuns

  // ----- every step, every run

  lemma HookKeeps(s: State, a: Action)
    requires Inv(s) && Sound(s) && Enabled(s, a)
    requires a.BeginIo? || a.Attempt? || a.GiveUp? || a.Wakened? || a.Check? || a.EndSleep?
    ensures Inv(Next(s, a))
  {
    hide InvBut, Sched.YieldStep, Deliver, Timers.Cancel, Timers.Inv;
    match a
    case BeginIo(w, fd, ev, timeout, connect) =>
        BeginIoKeeps(s, w, Call(s.infos, fd, ev, timeout, None, None, None, false, connect));
    case Attempt(w, again) =>
      if again {
        GotoKeeps(s, w, Try, Arming);
      } else {
        LeaveKeeps(s, w);
      }
    case GiveUp(w) =>
      var f := s.sched.workers[w].pc.f;
      CancelMaybeKeeps(s, f);
      LeaveKeeps(s.(timers := CancelMaybe(s.timers, s.prog[f].call.timer)), w);
    case Wakened(w) =>
      var f := s.sched.workers[w].pc.f;
      CancelMaybeKeeps(s, f);
      GotoKeeps(s.(timers := CancelMaybe(s.timers, s.prog[f].call.timer)), w, Parked, Checking);
    case Check(w) =>
      var f := s.sched.workers[w].pc.f;
      if s.prog[f].call.cancelled || s.prog[f].call.connect {
        LeaveKeeps(s, w);
      } else {
        GotoKeeps(s, w, Checking, Try);
      }
    case EndSleep(w) => LeaveKeeps(s, w);
  }

  lemma RegisterBothKeeps(s: State, w: nat, ok: bool)
    requires Inv(s) && Sound(s) && InIo(s, w, Registering)
    requires var c := s.prog[s.sched.workers[w].pc.f].call; !Registered(s, c.fd, c.ev)
    ensures Inv(RegisterNext(s, s.sched.workers[w].pc.f, ok))
  {
    hide InvBut, Events.AddEvent;
    var f := s.sched.workers[w].pc.f;
    var c := s.prog[f].call;
    if ok {
      RegisterKeeps(s, w);
    } else {
      AddQuietKeeps(s, c.fd, c.ev, Events.ByFiber(f), false);
      GotoKeeps(s.(io := Events.AddEvent(s.io, c.fd, c.ev, Events.ByFiber(f), false).0), w, Registering, Failing);
    }
  }

  lemma WaitKeeps(s: State, a: Action)
    requires Inv(s) && Sound(s) && Enabled(s, a) && Careful(s, a)
    requires a.SetTimer? || a.Register? || a.Park? || a.BeginSleep? || a.Yield? || a.Internal? || a.RunTimer?
    ensures Inv(Next(s, a))
  {
    hide InvBut, Sched.YieldStep, Deliver, SetTimerNext, RegisterNext, SleepNext, Timers.Inv, Sched.Next,
      Sched.Enabled, TimerNext, TakesTooEarly;
    match a
    case SetTimer(w, id) => SetTimerKeeps(s, w, id);
    case Register(w, ok) => RegisterBothKeeps(s, w, ok);
    case Park(w) => ParkKeeps(s, w);
    case BeginSleep(w, ms, id) => BeginSleepKeeps(s, w, ms, id);
    case Yield(w, st) => RuntimeSteps.YieldKeeps(s, w, st);
    case Internal(a) => InternalKeeps(s, a);
    case RunTimer(w, ok) => RunTimerKeeps(s, w, ok);
  }

  lemma OtherKeeps(s: State, a: Action)
    requires Inv(s) && Sound(s) && Enabled(s, a) && Careful(s, a)
    requires a.Tick? || a.Expire? || a.HandOver? || a.Ready? || a.CancelEv? || a.CloseFd? || a.LateResize? || a.DelEv?
             || a.Watch? || a.NewTimer? || a.CancelTimer? || a.RefreshTimer? || a.ResetTimer?
    ensures Inv(Next(s, a))
  {
    hide InvBut, Release, ReadyNext, CloseNext, DelNext, Events.AddEvent, Events.ResizeLate, Events.CutsOff, Timers.Inv,
      Timers.ListExpired, Timers.AddTimer, Timers.Cancel, Timers.Refresh, Timers.Reset;
    match a
    case Tick(d) => TickKeeps(s, d);
    case Expire(probe) => ExpireKeeps(s, probe);
    case HandOver(i) => HandOverKeeps(s, i);
    case Ready(fd, ready, ok) => RuntimeWaits.ReadyKeeps(s, fd, ready, ok);
    case CancelEv(fd, e, ok) => ReleaseKeeps(s, fd, e, ok);
    case CloseFd(fd, ok) => CloseKeeps(s, fd, ok);
    case LateResize(fd) => ResizeKeeps(s, fd);
    case DelEv(fd, e, ok) => DelKeeps(s, fd, e, ok);
    case Watch(fd, e, n, ok) => AddQuietKeeps(s, fd, e, Events.ByCallback(User(n)), ok);
    case NewTimer(id, ms, n, recurring) => NewTimerKeeps(s, id, ms, n, recurring);
    case CancelTimer(id) => CancelTimerKeeps(s, id);
    case RefreshTimer(id) => RefreshTimerKeeps(s, id);
    case ResetTimer(id, ms, fromNow) => ResetTimerKeeps(s, id, ms, fromNow);
  }

  lemma CarefulKeeps(s: State, a: Action)
    requires Inv(s) && Sound(s) && Enabled(s, a) && Careful(s, a)
    ensures Inv(Next(s, a))
  {
    hide InvBut, Next, Enabled, Sound, Careful;
    if a.BeginIo? || a.Attempt? || a.GiveUp? || a.Wakened? || a.Check? || a.EndSleep? {
      HookKeeps(s, a);
    } else if a.SetTimer? || a.Register? || a.Park? || a.BeginSleep? || a.Yield? || a.Internal? || a.RunTimer? {
      WaitKeeps(s, a);
    } else {
      OtherKeeps(s, a);
    }
  }

  /** What goes wrong can be seen: no fiber is in two hands, and events, waiters and counts agree. */
  ghost predicate InOrder(s: State)
  {
    HeldOnce(s.sched) && Events.Inv(s.io)
  }

  lemma InvIsInOrder(s: State)
    requires Inv(s)
    ensures InOrder(s)
  {
    ApartIsHeldOnce(s.sched);
  }

  lemma CarelessBreaks(s: State, a: Action)
    requires Inv(s) && Sound(s) && Enabled(s, a) && !Careful(s, a)
    ensures !InOrder(Next(s, a))
  {
    hide InvBut, TakesTooEarly, HeldOnce, Events.Inv, Events.ResizeLate, Events.CutsOff, Sched.Next, Timers.Inv;
    if a.Internal? {
      TooEarlyIsHeldTwice(s.sched, a.a);
    } else {
      InvIo(s);
      Events.LateResizeIsSafeExactly(s.io, a.fd);
    }
  }

  /** Every step keeps the invariant exactly if it is careful. */
  lemma StepKeeps(s: State, a: Action)
    requires Inv(s)
    ensures Inv(Step(s, a)) <==> InOrder(Step(s, a))
    ensures Inv(Step(s, a)) <==> (Enabled(s, a) ==> Careful(s, a))
  {
    hide InvBut, Next, Enabled, Sound, Careful, InOrder;
    InvIsSound(s, {});
    if Enabled(s, a) && !Careful(s, a) {
      CarelessBreaks(s, a);
      if Inv(Step(s, a)) {
        InvIsInOrder(Step(s, a));
      }
    } else {
      if Enabled(s, a) {
        CarefulKeeps(s, a);
      }
      InvIsInOrder(Step(s, a));
    }
  }

  ghost predicate Start(s: State)
  {
    && Sched.Fresh(s.sched) && s.prog == map[] && s.hands == [] && s.infos == 0
    && |s.io.ctxs| == Events.INITIAL_SIZE && (forall fd :: 0 <= fd < |s.io.ctxs| ==> s.io.ctxs[fd] == Events.IDLE)
    && s.io.pending == 0 && s.io.epoll == {}
    && s.timers == Timers.State(map[], [], false, s.timers.previous) && s.timers.previous <= s.clock
  }

  lemma {:induction false} NothingFlies(ws: seq<Sched.Worker>, cb: Callback)
    requires forall w :: 0 <= w < |ws| ==> ws[w].pc == Sched.Scan
    ensures Held(ws, cb) == 0
  {
    if ws != [] {
      NothingFlies(ws[1..], cb);
    }
  }

  lemma StartIsGood(s: State)
    requires Start(s)
    ensures Inv(s)
  {
    hide SingleInv, FineInv, Sched.Queued;
    FreshIsSingle(s.sched);
    FreshIsGood(s.sched);
    Events.TotalZero(s.io.ctxs);
    forall cb ensures FlyAt(s, cb) {
      NothingFlies(s.sched.workers, cb);
    }
  }

  ghost predicate AllCareful(s: State, acts: seq<Action>)
    decreases |acts|
  {
    acts == [] || ((Enabled(s, acts[0]) ==> Careful(s, acts[0])) && AllCareful(Step(s, acts[0]), acts[1..]))
  }

  ghost predicate AlwaysInOrder(s: State, acts: seq<Action>)
    decreases |acts|
  {
    InOrder(s) && (acts == [] || AlwaysInOrder(Step(s, acts[0]), acts[1..]))
  }

  lemma {:induction false} RunKeepsInv(s: State, acts: seq<Action>)
    requires Inv(s) && AllCareful(s, acts)
    ensures Inv(Run(s, acts))
    decreases |acts|
  {
    hide InvBut, Step, Enabled, Careful, InOrder;
    if acts != [] {
      StepKeeps(s, acts[0]);
      RunKeepsInv(Step(s, acts[0]), acts[1..]);
    }
  }

  lemma {:induction false} InOrderFrom(s: State, acts: seq<Action>)
    requires Inv(s)
    ensures AlwaysInOrder(s, acts) <==> AllCareful(s, acts)
    decreases |acts|
  {
    hide InvBut, Step, Enabled, Careful, InOrder;
    InvIsInOrder(s);
    if acts != [] {
      StepKeeps(s, acts[0]);
      if Inv(Step(s, acts[0])) {
        InOrderFrom(Step(s, acts[0]), acts[1..]);
      }
    }
  }

  /**
    Over every run of the composed system, yields in pieces and resizes late: each fiber is in one hand and events,
    waiters and counts agree throughout exactly if every step is careful.
   */
  lemma InOrderExactly(s: State, acts: seq<Action>)
    requires Start(s)
    ensures AlwaysInOrder(s, acts) <==> AllCareful(s, acts)
  {
    hide InvBut;
    StartIsGood(s);
    InOrderFrom(s, acts);
  }

  lemma Reachable(s: State, acts: seq<Action>)
    requires Start(s) && AllCareful(s, acts)
    ensures Inv(Run(s, acts))
  {
    hide InvBut;
    StartIsGood(s);
    RunKeepsInv(s, acts);
  }

  // ----- at most one wake-up, and none forgotten

  /**
    Since it last arranged a wake-up no fiber has been scheduled more than once; one that waits in a hook has been
    scheduled not yet and its event or timer still holds it, or exactly once, or lost its event to `delEvent`.
   */
  lemma WokenOnce(s: State, acts: seq<Action>, f: nat)
    requires Start(s) && AllCareful(s, acts)
    ensures var t := Run(s, acts);
            && (f in t.sched.wakes ==> t.sched.wakes[f] <= 1)
            && (Waits(t.prog, f) ==>
                  && f in t.sched.wakes
                  && if f in t.sched.armed then t.sched.wakes[f] == 0 && HasSource(t, f)
                     else t.sched.wakes[f] == 1 || f in t.sched.dropped)
  {
    hide SingleInv, Timers.Inv, Events.Inv, Flying, Run, FineInv, Sched.Queued;
    Reachable(s, acts);
    var t := Run(s, acts);
    WakesBounded(t.sched, f);
    assert SourceAt(t, f) && WakeAt(t, f);
    if f in t.sched.armed {
      ArmedFacts(t.sched, f);
    }
  }

  lemma WakesBounded(s: Sched.State, f: nat)
    requires SchedOk(s)
    ensures f in s.wakes ==> s.wakes[f] <= 1
  {}

  /** No fiber is ever held by two workers of the composed system. */
  lemma RunsOnce(s: State, acts: seq<Action>, v: nat, w: nat)
    requires Start(s) && AllCareful(s, acts)
    requires v < |Run(s, acts).sched.workers| && w < |Run(s, acts).sched.workers| && v != w
    ensures var x, y := Run(s, acts).sched.workers[v], Run(s, acts).sched.workers[w];
            InHand(x).Some? ==> InHand(x) != InHand(y)
  {
    Reachable(s, acts);
    assert Apart(Run(s, acts).sched.workers[v], Run(s, acts).sched.workers[w]);
  }

  // ----- exactly one wake-up when the event is reached

  predicate InWait(s: State, f: nat)
  {
    f in s.sched.armed && f in s.prog && s.prog[f].Io?
  }

  /** The step takes the event a call waits for: readiness, cancellation, close, or a live timeout. */
  predicate Reaches(s: State, a: Action, c: Call)
  {
    match a
    case Ready(fd, ready, ok) => ok && fd == c.fd && ready.Has(c.ev)
    case CancelEv(fd, e, ok) => ok && fd == c.fd && e == c.ev
    case CloseFd(fd, ok) => ok && fd == c.fd
    case RunTimer(w, ok) =>
      ok && w < |s.sched.workers| && s.sched.workers[w].pc.Running? && s.sched.workers[w].pc.e.task.CallTask? &&
      var cb := s.sched.workers[w].pc.e.task.cb;
      cb.IoTimeout? && Live(s.prog, cb) && !s.prog[cb.fiber].call.cancelled && cb.fd == c.fd && cb.event == c.ev
    case _ => false
  }

  predicate Deletes(a: Action, c: Call)
  {
    a.DelEv? && a.ok && a.fd == c.fd && a.e == c.ev
  }

  /** How often a fiber was ever scheduled. */
  function Times(log: seq<Sched.Entry>, f: nat): nat
  {
    if log == [] then 0 else Times(log[..|log| - 1], f) + (if log[|log| - 1].task == FiberTask(f) then 1 else 0)
  }

  lemma TimesAppend(log: seq<Sched.Entry>, e: Sched.Entry, f: nat)
    ensures Times(log + [e], f) == Times(log, f) + (if e.task == FiberTask(f) then 1 else 0)
  {
    assert (log + [e])[..|log|] == log;
  }

  /** The fiber has been scheduled, once more and for the first time since it arranged to be. */
  predicate Woken(s: State, t: State, f: nat)
  {
    && f !in t.sched.armed && f in t.sched.wakes && t.sched.wakes[f] == 1
    && Times(t.sched.log, f) == Times(s.sched.log, f) + 1
  }

  predicate Undisturbed(s: State, t: State, f: nat)
  {
    && (f in t.sched.armed <==> f in s.sched.armed)
    && (f in t.sched.wakes <==> f in s.sched.wakes) && (f in s.sched.wakes ==> t.sched.wakes[f] == s.sched.wakes[f])
    && Times(t.sched.log, f) == Times(s.sched.log, f)
  }

  lemma WaitFacts(s: State, f: nat)
    requires Inv(s) && InWait(s, f)
    ensures var c := s.prog[f].call;
            && Waits(s.prog, f) && Registered(s, c.fd, c.ev)
              && s.io.ctxs[c.fd].Get(c.ev) == Events.SlotFor(Events.ByFiber(f))
            && f in s.sched.wakes && s.sched.wakes[f] == 0
  {
    hide SchedOk, Timers.Inv, Flying;
    ArmedFacts(s.sched, f);
    var c := s.prog[f].call;
    assert SourceAt(s, f);
    assert s.io.ctxs[c.fd].Coherent();
  }

  lemma ReleaseWakes(s: State, f: nat)
    requires Inv(s) && InWait(s, f)
    ensures var c := s.prog[f].call; Woken(s, Release(s, c.fd, c.ev, true), f)
  {
    hide InvBut, Events.CancelEvent, Times;
    InvIo(s);
    WaitFacts(s, f);
    var c := s.prog[f].call;
    CancelEffect(s.io, c.fd, c.ev);
    GiveOne(s.sched, FiberTask(f));
    TimesAppend(s.sched.log, Sched.Entry(FiberTask(f), -1), f);
  }

  lemma ReleaseSpares(s: State, fd: nat, e: Event, ok: bool, f: nat)
    requires Inv(s) && !(ok && Registered(s, fd, e) && s.io.ctxs[fd].Get(e).fiber == Some(f))
    ensures Undisturbed(s, Release(s, fd, e, ok), f)
  {
    hide InvBut, Events.CancelEvent, Times;
    if Registered(s, fd, e) && ok {
      InvIo(s);
      CancelEffect(s.io, fd, e);
      var t := Events.WaiterTask(s.io.ctxs[fd].Get(e));
      GiveOne(s.sched, t);
      TimesAppend(s.sched.log, Sched.Entry(t, -1), f);
    } else {
      NoRelease(s, fd, e, ok);
    }
  }

  /** Nobody else's slot holds a fiber. */
  lemma ElsewhereNot(s: State, fd: nat, e: Event, f: nat)
    requires Inv(s) && fd < |s.io.ctxs| && s.io.ctxs[fd].Get(e).fiber == Some(f)
    ensures InWait(s, f) && s.prog[f].call.fd == fd && s.prog[f].call.ev == e
  {
    SlotFacts(s, fd, e);
  }

  lemma MaskWakes(s: State, fd: nat, m: Events.Mask, f: nat)
    requires Inv(s) && fd < |s.io.ctxs| && InWait(s, f)
    requires (m.r ==> s.io.ctxs[fd].events.r) && (m.w ==> s.io.ctxs[fd].events.w)
    ensures var c, t := s.prog[f].call, ReleaseIf(ReleaseIf(s, fd, READ, m.r), fd, WRITE, m.w);
            if c.fd == fd && m.Has(c.ev) then Woken(s, t, f) else Undisturbed(s, t, f)
  {
    hide InvBut, Release, Times;
    var c, s1 := s.prog[f].call, ReleaseIf(s, fd, READ, m.r);
    ReleaseKeeps(s, fd, READ, true);
    WaitFacts(s, f);
    if m.r {
      if c.fd == fd && c.ev == READ {
        ReleaseWakes(s, f);
      } else {
        SparesElse(s, fd, READ, f);
      }
    }
    ReleaseProg(s, fd, READ, true);
    if m.w {
      if c.fd == fd && c.ev == WRITE {
        ReleaseWakes(s1, f);
      } else {
        SparesElse(s1, fd, WRITE, f);
      }
    }
  }

  lemma ReleaseProg(s: State, fd: nat, e: Event, ok: bool)
    ensures Release(s, fd, e, ok).prog == s.prog
  {}

  lemma SparesElse(s: State, fd: nat, e: Event, f: nat)
    requires Inv(s) && !(InWait(s, f) && s.prog[f].call.fd == fd && s.prog[f].call.ev == e)
    ensures Undisturbed(s, Release(s, fd, e, true), f)
  {
    hide InvBut, Release, Times;
    if Registered(s, fd, e) && s.io.ctxs[fd].Get(e).fiber == Some(f) {
      ElsewhereNot(s, fd, e, f);
      assert false;
    }
    ReleaseSpares(s, fd, e, true, f);
  }
}
