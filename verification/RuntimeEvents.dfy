/** What every step of the composed runtime does to the waiters of descriptors, and to callbacks on their way. */
module RuntimeEvents {
  import opened Options
  import opened Tasks
  import Sched
  import opened Flight
  import Timers
  import Events
  import opened Runtime
  import opened RuntimeInv
  import opened RuntimeSteps
  import opened RuntimeWaits
  import opened RuntimeRuns
  import opened RuntimeTheorems

  // ----- the waiters

  /** Who waits for an event: the slot, or nobody where there is no context. */
  function Slot(io: Events.State, fd: nat, e: Event): Events.Slot
  {
    if fd < |io.ctxs| then io.ctxs[fd].Get(e) else Events.EMPTY
  }

  /** A worker runs the timeout callback of a call that lasts and is not marked. */
  predicate FiresAt(s: State, w: nat, fd: nat, e: Event)
  {
    w < |s.sched.workers| && s.sched.workers[w].pc.Running? && s.sched.workers[w].pc.e.task.CallTask? &&
    var cb := s.sched.workers[w].pc.e.task.cb;
    cb.IoTimeout? && Live(s.prog, cb) && !s.prog[cb.fiber].call.cancelled && cb.fd == fd && cb.event == e
  }

  /** The step takes an event: it is reported, cancelled, closed, or its call times out. */
  predicate Takes(s: State, a: Action, fd: nat, e: Event)
  {
    match a
    case Ready(d, ready, ok) => ok && d == fd && ready.Has(e)
    case CancelEv(d, x, ok) => ok && d == fd && x == e
    case CloseFd(d, ok) => ok && d == fd
    case RunTimer(w, ok) => ok && FiresAt(s, w, fd, e)
    case _ => false
  }

  predicate Deletes(a: Action, fd: nat, e: Event)
  {
    a.DelEv? && a.ok && a.fd == fd && a.e == e
  }

  /** The step puts a waiter in: the calling fiber, or a callback of the program. */
  function Puts(s: State, a: Action, fd: nat, e: Event): Option<Events.Slot>
    requires Enabled(s, a)
  {
    match a
    case Register(w, ok) =>
      var f := s.sched.workers[w].pc.f;
      if ok && s.prog[f].call.fd == fd && s.prog[f].call.ev == e then Some(Events.Slot(true, Some(f), None)) else None
    case Watch(d, x, n, ok) =>
      if ok && d == fd && x == e then Some(Events.Slot(true, None, Some(User(n)))) else None
    case _ => None
  }

  lemma EmptySlot(s: State, fd: nat, e: Event)
    requires Inv(s) && !Registered(s, fd, e)
    ensures Slot(s.io, fd, e) == Events.EMPTY
  {
    hide SchedOk, Timers.Inv;
    if fd < |s.io.ctxs| {
      assert s.io.ctxs[fd].Coherent();
    }
  }

  lemma ReleaseSlot(s: State, fd: nat, e: Event, ok: bool, d: nat, x: Event)
    requires Inv(s)
    ensures Slot(Release(s, fd, e, ok).io, d, x) ==
              if ok && d == fd && x == e then Events.EMPTY else Slot(s.io, d, x)
  {
    hide InvBut, Events.CancelEvent, Deliver;
    if Registered(s, fd, e) && ok {
      InvIo(s);
      CancelEffect(s.io, fd, e);
    } else {
      NoRelease(s, fd, e, ok);
      if d == fd && x == e && !Registered(s, fd, e) {
        EmptySlot(s, fd, e);
      }
    }
  }

  lemma MaskSlot(s: State, fd: nat, m: Events.Mask, d: nat, x: Event)
    requires Inv(s)
    ensures Slot(ReleaseIf(ReleaseIf(s, fd, READ, m.r), fd, WRITE, m.w).io, d, x) ==
              if d == fd && m.Has(x) then Events.EMPTY else Slot(s.io, d, x)
  {
    hide InvBut, Release, Slot;
    ReleaseKeeps(s, fd, READ, true);
    ReleaseSlot(s, fd, READ, true, d, x);
    ReleaseSlot(ReleaseIf(s, fd, READ, m.r), fd, WRITE, true, d, x);
  }

  lemma ReadySlot(s: State, fd: nat, ready: Events.Mask, ok: bool, d: nat, x: Event)
    requires Inv(s) && fd < |s.io.ctxs| && Events.Dispatch(s.io, fd, ready, ok).Handled?
    ensures Slot(ReadyNext(s, fd, ready, ok).io, d, x) ==
              if ok && d == fd && ready.Has(x) then Events.EMPTY else Slot(s.io, d, x)
  {
    hide InvBut, Deliver, Release;
    InvIo(s);
    if !s.io.ctxs[fd].events.Meet(ready).None() && ok {
      MaskIsReleases(s, fd, ready);
      MaskSlot(s, fd, ready, d, x);
    } else if d == fd && ready.Has(x) && !Registered(s, fd, x) {
      EmptySlot(s, fd, x);
    }
  }

  lemma CloseSlot(s: State, fd: nat, ok: bool, d: nat, x: Event)
    requires Inv(s)
    ensures Slot(CloseNext(s, fd, ok).io, d, x) == if ok && d == fd then Events.EMPTY else Slot(s.io, d, x)
  {
    hide InvBut, Deliver, Release;
    InvIo(s);
    if fd < |s.io.ctxs| && !s.io.ctxs[fd].events.None() && ok {
      MaskIsReleases(s, fd, s.io.ctxs[fd].events);
      MaskSlot(s, fd, s.io.ctxs[fd].events, d, x);
    }
    if d == fd && !Registered(s, fd, x) {
      EmptySlot(s, fd, x);
    }
  }

  lemma DelSlot(s: State, fd: nat, e: Event, ok: bool, d: nat, x: Event)
    requires Inv(s)
    ensures Slot(DelNext(s, fd, e, ok).io, d, x) == if ok && d == fd && x == e then Events.EMPTY else Slot(s.io, d, x)
  {
    hide InvBut;
    if Registered(s, fd, e) && ok {
      InvIo(s);
      DelEffect(s.io, fd, e);
    } else if d == fd && x == e && !Registered(s, fd, e) {
      EmptySlot(s, fd, e);
    }
  }

  lemma AddSlot(s: State, fd: nat, e: Event, w: Events.Waiter, ok: bool, d: nat, x: Event)
    requires Inv(s) && Sound(s) && !Registered(s, fd, e)
    ensures Slot(Events.AddEvent(s.io, fd, e, w, ok).0, d, x) ==
              if !(ok && d == fd && x == e) then Slot(s.io, d, x)
              else match w
                   case ByFiber(f) => Events.Slot(true, Some(f), None)
                   case ByCallback(cb) => Events.Slot(true, None, Some(cb))
  {
    hide InvBut, Events.AddEvent;
    InvIo(s);
    AddEventEffect(s.io, fd, e, w, ok);
    Monotone(s.io, fd, e, w, ok);
  }

  lemma Monotone(io: Events.State, fd: nat, e: Event, w: Events.Waiter, ok: bool)
    requires |io.ctxs| >= Events.INITIAL_SIZE
    ensures |io.ctxs| <= |Events.AddEvent(io, fd, e, w, ok).0.ctxs|
  {}

  lemma ResizeSlot(s: State, fd: nat, d: nat, x: Event)
    requires Inv(s) && !Events.CutsOff(s.io, fd)
    ensures Slot(Events.ResizeLate(s.io, fd), d, x) == Slot(s.io, d, x)
  {
    hide SchedOk, Timers.Inv;
    if |Events.ResizeLate(s.io, fd).ctxs| <= d < |s.io.ctxs| {
      assert s.io.ctxs[d].Coherent() && s.io.ctxs[d].events.None();
    }
  }

  lemma FireSlot(s: State, w: nat, ok: bool, d: nat, x: Event)
    requires Inv(s) && Sound(s) && Enabled(s, RunTimer(w, ok))
    ensures Slot(Next(s, RunTimer(w, ok)).io, d, x) ==
              if Takes(s, RunTimer(w, ok), d, x) then Events.EMPTY else Slot(s.io, d, x)
  {
    hide InvBut, Release, Sched.YieldStep, Timers.Inv, Slot;
    var cb := s.sched.workers[w].pc.e.task.cb;
    if cb.IoTimeout? && Live(s.prog, cb) && !s.prog[cb.fiber].call.cancelled {
      ReleaseSlot(s, cb.fd, cb.event, ok, d, x);
      SameIo(s, s.(prog := s.prog[cb.fiber := s.prog[cb.fiber].(call := s.prog[cb.fiber].call.(cancelled := true))]),
             cb.fd, cb.event, ok);
    }
  }

  lemma SameIo(s: State, t: State, fd: nat, e: Event, ok: bool)
    requires t.io == s.io
    ensures Release(t, fd, e, ok).io == Release(s, fd, e, ok).io
  {}

  lemma EventSlot(s: State, a: Action, d: nat, x: Event)
    requires Inv(s) && Sound(s) && Enabled(s, a)
    requires a.Ready? || a.CloseFd? || a.CancelEv? || a.DelEv? || a.RunTimer?
    ensures Slot(Next(s, a).io, d, x) ==
              if Takes(s, a, d, x) || Deletes(a, d, x) then Events.EMPTY else Slot(s.io, d, x)
  {
    hide InvBut, Slot, ReadyNext, CloseNext, DelNext, Release, TimerNext, Timers.Inv;
    match a
    case Ready(fd, ready, ok) => ReadySlot(s, fd, ready, ok, d, x);
    case CloseFd(fd, ok) => CloseSlot(s, fd, ok, d, x);
    case CancelEv(fd, e, ok) => ReleaseSlot(s, fd, e, ok, d, x);
    case DelEv(fd, e, ok) => DelSlot(s, fd, e, ok, d, x);
    case RunTimer(w, ok) => FireSlot(s, w, ok, d, x);
  }

  lemma PutSlot(s: State, a: Action, d: nat, x: Event)
    requires Inv(s) && Sound(s) && Enabled(s, a) && Careful(s, a) && (a.Register? || a.Watch? || a.LateResize?)
    ensures Slot(Next(s, a).io, d, x) == if Puts(s, a, d, x).Some? then Puts(s, a, d, x).value else Slot(s.io, d, x)
  {
    hide InvBut, Slot, Timers.Inv, Events.AddEvent, Events.ResizeLate, Events.CutsOff;
    match a
    case Register(w, ok) =>
      var f := s.sched.workers[w].pc.f;
      AddSlot(s, s.prog[f].call.fd, s.prog[f].call.ev, Events.ByFiber(f), ok, d, x);
    case Watch(fd, e, n, ok) => AddSlot(s, fd, e, Events.ByCallback(User(n)), ok, d, x);
    case LateResize(fd) => ResizeSlot(s, fd, d, x);
  }

  lemma OtherSlot(s: State, a: Action)
    requires Sound(s) && Enabled(s, a)
    requires !(a.Ready? || a.CloseFd? || a.CancelEv? || a.DelEv? || a.RunTimer? || a.Register? || a.Watch?
               || a.LateResize?)
    ensures Next(s, a).io == s.io
  {
    hide Sched.YieldStep, Deliver, Timers.Inv, Timers.AddTimer, Timers.Cancel, Timers.ListExpired, Timers.Refresh,
      Timers.Reset, Sched.Next, Sched.Enabled;
  }

  /**
    For every careful step and every event: who waits for it afterwards is nobody if the step takes or deletes it, the
    fiber or callback of the program that the step registers, and otherwise who did before.
   */
  lemma WaiterExactly(s: State, a: Action, fd: nat, e: Event)
    requires Inv(s) && Sound(s) && Enabled(s, a) && Careful(s, a)
    ensures Slot(Next(s, a).io, fd, e) ==
              if Takes(s, a, fd, e) || Deletes(a, fd, e) then Events.EMPTY
              else if Puts(s, a, fd, e).Some? then Puts(s, a, fd, e).value
              else Slot(s.io, fd, e)
  {
    hide InvBut, Next, Enabled, Sound, Careful, Slot;
    if a.Ready? || a.CloseFd? || a.CancelEv? || a.DelEv? || a.RunTimer? {
      EventSlot(s, a, fd, e);
    } else if a.Register? || a.Watch? || a.LateResize? {
      PutSlot(s, a, fd, e);
    } else {
      OtherSlot(s, a);
    }
  }

  // ----- callbacks on their way

  /** The slot holds this callback. */
  function HasCb(s: State, fd: nat, e: Event, cb: Callback): nat
  {
    if Slot(s.io, fd, e).cb == Some(cb) then 1 else 0
  }

  /** The descriptor whose events a step may take. */
  function At(s: State, a: Action): nat
    requires Enabled(s, a)
  {
    if a.Ready? || a.CancelEv? || a.CloseFd? then a.fd
    else if a.RunTimer? && s.sched.workers[a.w].pc.e.task.cb.IoTimeout? then s.sched.workers[a.w].pc.e.task.cb.fd
    else 0
  }

  /** How often a step sends a callback on its way: scheduled, expired, or handed over for an event. */
  function Enters(s: State, a: Action, cb: Callback): nat
    requires Sound(s) && Enabled(s, a)
  {
    if a.Internal? && a.a.Schedule? then (if a.a.cb == cb then 1 else 0)
    else if a.Expire? then multiset(Timers.ListExpired(s.timers, s.clock, a.probe).1)[cb]
    else (if Takes(s, a, At(s, a), READ) then HasCb(s, At(s, a), READ, cb) else 0)
         + (if Takes(s, a, At(s, a), WRITE) then HasCb(s, At(s, a), WRITE, cb) else 0)
  }

  /** How often a step is the end of one: the fiber that ran it swaps out. */
  function Leaves(s: State, a: Action, cb: Callback): nat
    requires Enabled(s, a)
  {
    if a.Yield? || a.Park? || a.RunTimer? then Holds(s.sched.workers[a.w], cb) else 0
  }

  lemma ReleaseFlies(s: State, fd: nat, e: Event, ok: bool, cb: Callback)
    requires Inv(s)
    ensures Flying(Release(s, fd, e, ok).sched, cb) == Flying(s.sched, cb) + if ok then HasCb(s, fd, e, cb) else 0
  {
    hide InvBut, Events.CancelEvent, Flying;
    if Registered(s, fd, e) && ok {
      InvIo(s);
      CancelEffect(s.io, fd, e);
      var t := Events.WaiterTask(s.io.ctxs[fd].Get(e));
      GiveOne(s.sched, t);
      if t.FiberTask? {
        ResumeFlies(s.sched, t.fiber, cb);
      } else {
        EnqueueFlies(s.sched, Sched.Entry(t, -1), cb);
      }
    } else {
      NoRelease(s, fd, e, ok);
      if !Registered(s, fd, e) {
        EmptySlot(s, fd, e);
      }
    }
  }

  lemma MaskFlies(s: State, fd: nat, m: Events.Mask, cb: Callback)
    requires Inv(s)
    ensures Flying(ReleaseIf(ReleaseIf(s, fd, READ, m.r), fd, WRITE, m.w).sched, cb) ==
              Flying(s.sched, cb) + (if m.r then HasCb(s, fd, READ, cb) else 0)
                                  + (if m.w then HasCb(s, fd, WRITE, cb) else 0)
  {
    hide InvBut, Release, Slot, Flying;
    var s1 := ReleaseIf(s, fd, READ, m.r);
    ReleaseKeeps(s, fd, READ, true);
    ReleaseFlies(s, fd, READ, true, cb);
    ReleaseSlot(s, fd, READ, true, fd, WRITE);
    ReleaseFlies(s1, fd, WRITE, true, cb);
  }

  lemma ReadyFlies(s: State, fd: nat, ready: Events.Mask, ok: bool, cb: Callback)
    requires Inv(s) && fd < |s.io.ctxs| && Events.Dispatch(s.io, fd, ready, ok).Handled?
    ensures Flying(ReadyNext(s, fd, ready, ok).sched, cb) ==
              Flying(s.sched, cb) + (if ok && ready.r then HasCb(s, fd, READ, cb) else 0)
                                  + (if ok && ready.w then HasCb(s, fd, WRITE, cb) else 0)
  {
    hide InvBut, Deliver, Release, Flying;
    InvIo(s);
    DeliverNone(s.sched);
    if !s.io.ctxs[fd].events.Meet(ready).None() && ok {
      MaskIsReleases(s, fd, ready);
      MaskFlies(s, fd, ready, cb);
    } else if ok {
      NoCallback(s, fd, ready);
    }
  }

  lemma NoCallback(s: State, fd: nat, m: Events.Mask)
    requires Inv(s) && (fd < |s.io.ctxs| ==> s.io.ctxs[fd].events.Meet(m).None())
    ensures m.r ==> Slot(s.io, fd, READ) == Events.EMPTY
    ensures m.w ==> Slot(s.io, fd, WRITE) == Events.EMPTY
  {
    hide InvBut, Slot;
    if !Registered(s, fd, READ) {
      EmptySlot(s, fd, READ);
    }
    if !Registered(s, fd, WRITE) {
      EmptySlot(s, fd, WRITE);
    }
  }

  lemma CloseFlies(s: State, fd: nat, ok: bool, cb: Callback)
    requires Inv(s)
    ensures Flying(CloseNext(s, fd, ok).sched, cb) ==
              Flying(s.sched, cb) + if ok then HasCb(s, fd, READ, cb) + HasCb(s, fd, WRITE, cb) else 0
  {
    hide InvBut, Deliver, Release, Flying;
    InvIo(s);
    DeliverNone(s.sched);
    if fd < |s.io.ctxs| && !s.io.ctxs[fd].events.None() && ok {
      MaskIsReleases(s, fd, s.io.ctxs[fd].events);
      MaskFlies(s, fd, s.io.ctxs[fd].events, cb);
    }
    NoCallbackAt(s, fd);
  }

  lemma NoCallbackAt(s: State, fd: nat)
    requires Inv(s)
    ensures !Registered(s, fd, READ) ==> Slot(s.io, fd, READ) == Events.EMPTY
    ensures !Registered(s, fd, WRITE) ==> Slot(s.io, fd, WRITE) == Events.EMPTY
  {
    hide InvBut, Slot;
    if !Registered(s, fd, READ) {
      EmptySlot(s, fd, READ);
    }
    if !Registered(s, fd, WRITE) {
      EmptySlot(s, fd, WRITE);
    }
  }

  lemma SameRelease(s: State, t: State, fd: nat, e: Event, ok: bool)
    requires t.io == s.io && t.sched == s.sched
    ensures Release(t, fd, e, ok).sched == Release(s, fd, e, ok).sched
  {}

  lemma FireFlies(s: State, w: nat, ok: bool, cb: Callback)
    requires Inv(s) && Sound(s) && Enabled(s, RunTimer(w, ok))
    ensures Flying(Next(s, RunTimer(w, ok)).sched, cb) ==
              Flying(s.sched, cb) + Enters(s, RunTimer(w, ok), cb) - Leaves(s, RunTimer(w, ok), cb)
  {
    hide InvBut, Release, Sched.YieldStep, Timers.Inv, Slot, Flying, HasCb;
    var c := s.sched.workers[w].pc.e.task.cb;
    var s1 := Fire(s, c, ok);
    FireKeepsWorkers(s, c, ok);
    FlyingYield(s1.sched, w, Sched.TERM, cb);
    if c.WakeFiber? {
      ResumeFlies(s.sched, c.fiber, cb);
    } else if Live(s.prog, c) && !s.prog[c.fiber].call.cancelled {
      ReleaseFlies(s, c.fd, c.event, ok, cb);
      SameRelease(s, s.(prog := s.prog[c.fiber := s.prog[c.fiber].(call := s.prog[c.fiber].call.(cancelled := true))]),
                  c.fd, c.event, ok);
    }
  }

  lemma EventFlies(s: State, a: Action, cb: Callback)
    requires Inv(s) && Sound(s) && Enabled(s, a) && (a.Ready? || a.CloseFd? || a.CancelEv? || a.RunTimer?)
    ensures InFlight(Next(s, a), cb) + Leaves(s, a, cb) == InFlight(s, cb) + Enters(s, a, cb)
  {
    hide InvBut, ReadyNext, CloseNext, Release, Fire, Timers.Inv, Slot, Flying, HasCb, Sched.YieldStep;
    match a
    case Ready(fd, ready, ok) =>
      ReadyFlies(s, fd, ready, ok, cb);
      SameHands(s, a);
    case CloseFd(fd, ok) =>
      CloseFlies(s, fd, ok, cb);
      SameHands(s, a);
    case CancelEv(fd, e, ok) =>
      ReleaseFlies(s, fd, e, ok, cb);
      SameHands(s, a);
    case RunTimer(w, ok) =>
      FireFlies(s, w, ok, cb);
      SameHands(s, a);
  }

  lemma SameHands(s: State, a: Action)
    requires Sound(s) && Enabled(s, a) && !a.Expire? && !a.HandOver?
    ensures Next(s, a).hands == s.hands
  {
    hide Sched.YieldStep, Deliver, Timers.Inv, Timers.AddTimer, Timers.Cancel, Timers.Refresh, Timers.Reset,
      Events.AddEvent, Events.CancelEvent, Events.Dispatch, Events.CancelAll, Events.DelEvent, Sched.Next,
      Sched.Enabled;
  }

  lemma SchedFlies(s: State, a: Action, cb: Callback)
    requires Sound(s) && Enabled(s, a) && (a.Internal? || a.Yield? || a.Park?)
    ensures InFlight(Next(s, a), cb) + Leaves(s, a, cb) == InFlight(s, cb) + Enters(s, a, cb)
  {
    hide Sched.YieldStep, Sched.Next, Timers.Inv, Flying, Takes;
    if a.Yield? {
      FlyingYield(s.sched, a.w, a.st, cb);
    } else if a.Park? {
      FlyingYield(s.sched, a.w, Sched.HOLD, cb);
    } else if a.a.Schedule? {
      ScheduleFlies(s.sched, a.a.cb, a.a.thread, cb);
    } else {
      FlyingKept(s.sched, a.a, cb);
    }
    NothingTaken(s, a);
  }

  lemma NothingTaken(s: State, a: Action)
    requires !(a.Ready? || a.CloseFd? || a.CancelEv? || a.RunTimer?)
    ensures forall fd, e :: !Takes(s, a, fd, e)
  {}

  lemma HandsFly(s: State, a: Action, cb: Callback)
    requires Sound(s) && Enabled(s, a) && (a.Expire? || a.HandOver?)
    ensures InFlight(Next(s, a), cb) + Leaves(s, a, cb) == InFlight(s, cb) + Enters(s, a, cb)
  {
    hide Timers.Inv, Timers.ListExpired, Flying, Takes;
    NothingTaken(s, a);
    if a.Expire? {
      var cbs := Timers.ListExpired(s.timers, s.clock, a.probe).1;
      assert multiset(s.hands + cbs)[cb] == multiset(s.hands)[cb] + multiset(cbs)[cb];
    } else {
      CutOne(s.hands, a.i, cb);
      EnqueueFlies(s.sched, Sched.Entry(CallTask(s.hands[a.i]), -1), cb);
    }
  }

  lemma OtherFlies(s: State, a: Action, cb: Callback)
    requires Sound(s) && Enabled(s, a)
    requires !(a.Ready? || a.CloseFd? || a.CancelEv? || a.RunTimer? || a.Internal? || a.Yield? || a.Park? || a.Expire?
               || a.HandOver?)
    ensures InFlight(Next(s, a), cb) + Leaves(s, a, cb) == InFlight(s, cb) + Enters(s, a, cb)
  {
    hide Next, Enabled, Sound, Flying, Takes;
    NothingTaken(s, a);
    SameHands(s, a);
    SameCarried(s, a);
    SameFlying(s.sched, Next(s, a).sched);
  }

  lemma SameCarried(s: State, a: Action)
    requires Sound(s) && Enabled(s, a)
    requires !(a.Ready? || a.CloseFd? || a.CancelEv? || a.RunTimer? || a.Internal? || a.Yield? || a.Park? || a.Expire?
               || a.HandOver?)
    ensures Next(s, a).sched.queue == s.sched.queue && Next(s, a).sched.workers == s.sched.workers
  {
    hide Timers.Inv, Timers.AddTimer, Timers.Cancel, Timers.Refresh, Timers.Reset, Events.AddEvent, Events.DelEvent,
      Sched.Enabled;
  }

  /**
    For every step and every callback, of hooks or of the program: what is in a poller's hands, queued or with a worker
    grows exactly by what was scheduled, expired or waited for an event the step takes, and shrinks exactly by what the
    fiber that swaps out has run.
   */
  lemma CallbacksConserved(s: State, a: Action, cb: Callback)
    requires Inv(s) && Sound(s) && Enabled(s, a)
    ensures InFlight(Next(s, a), cb) + Leaves(s, a, cb) == InFlight(s, cb) + Enters(s, a, cb)
  {
    hide InvBut, Next, Enabled, Sound, InFlight, Leaves, Enters;
    if a.Ready? || a.CloseFd? || a.CancelEv? || a.RunTimer? {
      EventFlies(s, a, cb);
    } else if a.Internal? || a.Yield? || a.Park? {
      SchedFlies(s, a, cb);
    } else if a.Expire? || a.HandOver? {
      HandsFly(s, a, cb);
    } else {
      OtherFlies(s, a, cb);
    }
  }

  // ----- over runs

  /** How often a callback was sent on its way in a run, and how often it was run. */
  ghost function Sent(s: State, acts: seq<Action>, cb: Callback): nat
    decreases |acts|
  {
    if acts == [] then 0 else
      (if Sound(s) && Enabled(s, acts[0]) then Enters(s, acts[0], cb) else 0) + Sent(Step(s, acts[0]), acts[1..], cb)
  }

  ghost function Done(s: State, acts: seq<Action>, cb: Callback): nat
    decreases |acts|
  {
    if acts == [] then 0 else
      (if Sound(s) && Enabled(s, acts[0]) then Leaves(s, acts[0], cb) else 0) + Done(Step(s, acts[0]), acts[1..], cb)
  }

  lemma {:induction false} ConservedAlong(s: State, acts: seq<Action>, cb: Callback)
    requires Inv(s) && AllCareful(s, acts)
    ensures InFlight(Run(s, acts), cb) + Done(s, acts, cb) == InFlight(s, cb) + Sent(s, acts, cb)
    decreases |acts|
  {
    hide InvBut, Next, Enabled, Sound, InFlight, Leaves, Enters, Careful, InOrder;
    if acts != [] {
      if Sound(s) && Enabled(s, acts[0]) {
        CallbacksConserved(s, acts[0], cb);
      }
      RuntimeTheorems.StepKeeps(s, acts[0]);
      ConservedAlong(Step(s, acts[0]), acts[1..], cb);
    }
  }

  lemma NoneInFlight(s: State, cb: Callback)
    requires Start(s)
    ensures InFlight(s, cb) == 0
  {
    NothingFlies(s.sched.workers, cb);
  }

  /** In every careful run from the start, a callback has been run as often as it was sent, less those on their way. */
  lemma EachRunOnce(s: State, acts: seq<Action>, cb: Callback)
    requires Start(s) && AllCareful(s, acts)
    ensures Sent(s, acts, cb) == Done(s, acts, cb) + InFlight(Run(s, acts), cb)
  {
    hide InvBut, Run, Sent, Done, InFlight, AllCareful;
    StartIsGood(s);
    NoneInFlight(s, cb);
    ConservedAlong(s, acts, cb);
  }
}
