/** The steps that arrange, deliver and take away wake-ups keep the invariant. */
module RuntimeWaits {
  import opened Options
  import opened Tasks
  import Sched
  import opened SchedCounts
  import opened SchedApart
  import opened SchedSingle
  import opened Flight
  import Timers
  import Events
  import opened Runtime
  import opened RuntimeInv
  import opened RuntimeSteps

  // ----- arming the timeout

  lemma SetTimerKeeps(s: State, w: nat, id: nat)
    requires Inv(s) && Sound(s) && InIo(s, w, Arming) && id !in s.timers.all
    ensures Inv(SetTimerNext(s, s.sched.workers[w].pc.f, id))
  {
    hide SchedOk, Events.Inv, SlotAt, PendAt, FlyAt, SourceAt, WakeAt, RunAt, Sched.Queued, Timers.AddTimer;
    var f := s.sched.workers[w].pc.f;
    var c := s.prog[f].call;
    AtEase(s, w);
    assert ProgAt(s, f);
    match c.timeout
    case None => ProgMove(s, SetTimerNext(s, f, id), w, Some(Io(c.(timer := None), Registering)));
    case Some(t) => SetTimeoutKeeps(s, w, id, t);
  }

  lemma SetTimeoutKeeps(s: State, w: nat, id: nat, t: nat)
    requires Inv(s) && Sound(s) && InIo(s, w, Arming) && id !in s.timers.all
    requires s.prog[s.sched.workers[w].pc.f].call.timeout == Some(t)
    ensures Inv(SetTimerNext(s, s.sched.workers[w].pc.f, id))
  {
    hide InvBut, Sound, Sched.Queued, Timers.AddTimer;
    var f := s.sched.workers[w].pc.f;
    var c := s.prog[f].call;
    var c1 := c.(first := if c.first.Some? then c.first else Some(s.clock), last := Some(s.clock));
    var s1 := s.(prog := s.prog[f := Io(c1, Registering)]);
    FirstWaitKeeps(s, s1, w, c1);
    InvIsSound(s1, {});
    var s2 := s1.(timers := Timers.AddTimer(s.timers, id, t, IoTimeout(f, c.info, c.fd, c.ev), false, s.clock).0);
    AddTimeoutKeeps(s1, f, id, t);
    Timers.AddTimerKeeps(s.timers, id, t, IoTimeout(f, c.info, c.fd, c.ev), false, s.clock);
    OwnTimerKeeps(s2, w, id);
    assert s2.prog[f := Io(c1.(timer := Some(id)), Registering)]
        == s.prog[f := Io(c1.(timer := Some(id)), Registering)];
  }

  lemma FirstWaitKeeps(s: State, s': State, w: nat, c: Call)
    requires Inv(s) && InIo(s, w, Arming)
    requires var f := s.sched.workers[w].pc.f;
             && s' == s.(prog := s.prog[f := Io(c, Registering)])
             && c == s.prog[f].call.(first := c.first, last := Some(s.clock))
             && c.first == (if s.prog[f].call.first.Some? then s.prog[f].call.first else Some(s.clock))
    ensures Inv(s')
  {
    hide SchedOk, Timers.Inv, Events.Inv, SlotAt, PendAt, FlyAt, SourceAt, WakeAt, RunAt, Sched.Queued;
    AtEase(s, w);
    assert ProgAt(s, s.sched.workers[w].pc.f);
    ProgMove(s, s', w, Some(Io(c, Registering)));
  }

  lemma OwnTimerKeeps(s: State, w: nat, id: nat)
    requires Inv(s) && InIo(s, w, Registering) && id in s.timers.all
    requires var f := s.sched.workers[w].pc.f;
             var c := s.prog[f].call;
             s.timers.all[id].cb == Some(IoTimeout(f, c.info, c.fd, c.ev))
    ensures var f := s.sched.workers[w].pc.f;
            Inv(s.(prog := s.prog[f := Io(s.prog[f].call.(timer := Some(id)), Registering)]))
  {
    hide SchedOk, Timers.Inv, Events.Inv, SlotAt, PendAt, FlyAt, SourceAt, WakeAt, RunAt, Sched.Queued;
    var f := s.sched.workers[w].pc.f;
    AtEase(s, w);
    assert ProgAt(s, f);
    var p := Io(s.prog[f].call.(timer := Some(id)), Registering);
    ProgMove(s, s.(prog := s.prog[f := p]), w, Some(p));
  }

  lemma AddTimeoutKeeps(s: State, f: nat, id: nat, t: nat)
    requires Inv(s) && Sound(s) && f in s.prog && s.prog[f].Io? && id !in s.timers.all
    requires s.prog[f].call.timeout == Some(t) && s.prog[f].call.first.Some? && s.prog[f].call.last == Some(s.clock)
    ensures var c := s.prog[f].call;
            Inv(s.(timers := Timers.AddTimer(s.timers, id, t, IoTimeout(f, c.info, c.fd, c.ev), false, s.clock).0))
  {
    hide SchedOk, Events.Inv, Timers.Inv, Sched.Queued, Timers.AddTimer, Flying;
    var c := s.prog[f].call;
    var cb := IoTimeout(f, c.info, c.fd, c.ev);
    Timers.AddTimerKeeps(s.timers, id, t, cb, false, s.clock);
    var s' := s.(timers := Timers.AddTimer(s.timers, id, t, cb, false, s.clock).0);
    assert ProgAt(s, f);
    Lift(s, s', {}, {});
  }

  // ----- arranging a wake-up

  lemma ArmSched(s: Sched.State, w: nat)
    requires SchedOk(s) && w < |s.workers| && s.workers[w].pc.Running?
    requires s.workers[w].pc.f !in s.armed && !Sched.Queued(s, s.workers[w].pc.f)
    ensures SchedOk(ArmNow(s, s.workers[w].pc.f))
  {
    hide SchedOk, Sched.Queued;
    SchedKept(s, Sched.Arm(w));
  }

  lemma AddEventEffect(io: Events.State, fd: nat, e: Event, x: Events.Waiter, ok: bool)
    requires Events.Inv(io) && (fd < |io.ctxs| ==> !io.ctxs[fd].events.Has(e))
    ensures var io' := Events.AddEvent(io, fd, e, x, ok).0;
            && Events.Inv(io') && |io.ctxs| <= |io'.ctxs| && fd < |io'.ctxs|
            && (forall d, a :: 0 <= d < |io'.ctxs| && !(ok && d == fd && a == e) ==>
                  io'.ctxs[d].Get(a) == if d < |io.ctxs| then io.ctxs[d].Get(a) else Events.EMPTY)
            && (ok ==> io'.ctxs[fd].Get(e) == Events.SlotFor(x))
            && (fd < |io.ctxs| ==> io.ctxs[fd].Get(e) == Events.EMPTY)
  {
    Events.AddEventKeeps(io, fd, e, x, ok);
    Events.LookupKeeps(io, fd);
    if fd < |io.ctxs| {
      assert io.ctxs[fd].Coherent();
    }
  }

  /** The event table moves to one with the same waiters, but for callbacks of the program. */
  lemma WatchKeeps(s: State, io: Events.State)
    requires Inv(s) && Events.Inv(io)
    requires forall d, a :: 0 <= d < |io.ctxs| ==>
               io.ctxs[d].Get(a).fiber == (if d < |s.io.ctxs| then s.io.ctxs[d].Get(a).fiber else None)
    requires forall d, a :: |io.ctxs| <= d < |s.io.ctxs| ==> s.io.ctxs[d].Get(a).fiber == None
    requires forall d, a :: 0 <= d < |io.ctxs| && io.ctxs[d].Get(a).cb.Some? ==> io.ctxs[d].Get(a).cb.value.User?
    ensures Inv(s.(io := io))
  {
    hide SchedOk, Events.Inv, Timers.Inv, Sched.Queued, Flying;
    var s' := s.(io := io);
    Lift(s, s', {}, {});
  }

  lemma AddQuietKeeps(s: State, fd: nat, e: Event, x: Events.Waiter, ok: bool)
    requires Inv(s) && Sound(s) && !Registered(s, fd, e) && (if ok then x.ByCallback? && x.cb.User? else true)
    ensures Inv(s.(io := Events.AddEvent(s.io, fd, e, x, ok).0))
  {
    hide InvBut, Events.AddEvent;
    InvIo(s);
    var io := Events.AddEvent(s.io, fd, e, x, ok).0;
    AddEventEffect(s.io, fd, e, x, ok);
    forall d, a | 0 <= d < |io.ctxs| && io.ctxs[d].Get(a).cb.Some? ensures io.ctxs[d].Get(a).cb.value.User? {
      if d < |s.io.ctxs| && !(ok && d == fd && a == e) {
        SlotFacts(s, d, a);
      }
    }
    WatchKeeps(s, io);
  }

  /** A late resize keeps the runtime in order exactly if it drops no registered context. */
  lemma ResizeKeeps(s: State, fd: nat)
    requires Inv(s)
    ensures Inv(s.(io := Events.ResizeLate(s.io, fd))) <==> !Events.CutsOff(s.io, fd)
  {
    hide InvBut, Events.Inv;
    InvIo(s);
    var io := Events.ResizeLate(s.io, fd);
    Events.LateResizeIsSafeExactly(s.io, fd);
    if Events.CutsOff(s.io, fd) {
      IoBroken(s.(io := io));
    } else {
      EmptyBeyond(s.io, fd);
      forall d, a | 0 <= d < |io.ctxs| && io.ctxs[d].Get(a).cb.Some? ensures io.ctxs[d].Get(a).cb.value.User? {
        if d < |s.io.ctxs| {
          SlotFacts(s, d, a);
        }
      }
      WatchKeeps(s, io);
    }
  }

  lemma IoBroken(s: State)
    requires !Events.Inv(s.io)
    ensures !Inv(s)
  {}

  lemma EmptyBeyond(io: Events.State, fd: nat)
    requires Events.Inv(io) && !Events.CutsOff(io, fd)
    ensures forall d, a :: |Events.ResizeLate(io, fd).ctxs| <= d < |io.ctxs| ==> io.ctxs[d].Get(a).fiber == None
  {
    forall d, a | |Events.ResizeLate(io, fd).ctxs| <= d < |io.ctxs| ensures io.ctxs[d].Get(a).fiber == None {
      assert io.ctxs[d].Coherent() && io.ctxs[d].events.None();
    }
  }

  lemma InvIo(s: State)
    requires Inv(s)
    ensures Events.Inv(s.io)
  {}

  lemma SlotFacts(s: State, fd: nat, e: Event)
    requires Inv(s) && fd < |s.io.ctxs|
    ensures SlotAt(s, fd, e)
  {}

  /** A fiber on its way to its yield may be waited for; nobody else runs anything else. */
  lemma ArmedRuns(s: State, s': State, w: nat)
    requires Inv(s) && InCode(s, w) && s'.sched == ArmNow(s.sched, s.sched.workers[w].pc.f)
    requires var f := s.sched.workers[w].pc.f;
             f in s'.prog && s'.prog == s.prog[f := s'.prog[f]] && s'.prog[f].at == Yielding
    ensures forall v :: 0 <= v < |s'.sched.workers| ==> RunAt(s', v)
  {
    hide SchedOk, Events.Inv, Timers.Inv, Sched.Queued, ProgAt, SlotAt, PendAt, FlyAt, SourceAt, WakeAt;
    RunFacts(s.sched, w);
    forall v | 0 <= v < |s'.sched.workers| ensures RunAt(s', v) {
      assert RunAt(s, v);
      if s'.sched.workers[v].pc.Running? {
        SameQueue(s.sched, s'.sched, s'.sched.workers[v].pc.f);
      }
    }
  }

  /** Registering fills the call's own slot, and everybody who is waited for keeps theirs. */
  lemma RegisterSlots(s: State, w: nat)
    requires Inv(s) && Sound(s) && InIo(s, w, Registering)
    requires var c := s.prog[s.sched.workers[w].pc.f].call; !Registered(s, c.fd, c.ev)
    ensures var s' := RegisterNext(s, s.sched.workers[w].pc.f, true);
            && Events.Inv(s'.io) && (forall fd, e :: 0 <= fd < |s'.io.ctxs| ==> SlotAt(s', fd, e))
            && (forall g :: SourceAt(s', g))
  {
    hide SchedOk, Events.Inv, Timers.Inv, Sched.Queued, Flying, Events.AddEvent, ProgAt, RunAt, PendAt, FlyAt, WakeAt;
    var f := s.sched.workers[w].pc.f;
    var c, s' := s.prog[f].call, RegisterNext(s, f, true);
    AtEase(s, w);
    AddEventEffect(s.io, c.fd, c.ev, Events.ByFiber(f), true);
    SameFlying(s.sched, s'.sched);
    forall fd, e | 0 <= fd < |s'.io.ctxs| ensures SlotAt(s', fd, e) {
      assert fd < |s.io.ctxs| ==> SlotAt(s, fd, e);
    }
    forall g ensures SourceAt(s', g) {
      assert SourceAt(s, g);
    }
  }

  lemma RegisterKeeps(s: State, w: nat)
    requires Inv(s) && Sound(s) && InIo(s, w, Registering)
    requires var c := s.prog[s.sched.workers[w].pc.f].call; !Registered(s, c.fd, c.ev)
    ensures Inv(RegisterNext(s, s.sched.workers[w].pc.f, true))
  {
    hide SchedOk, Events.Inv, Timers.Inv, Sched.Queued, Flying, Events.AddEvent, TimeoutAt, RunAt, SlotAt, SourceAt;
    var f := s.sched.workers[w].pc.f;
    var s' := RegisterNext(s, f, true);
    MovedTimeouts(s, s', f);
    AtEase(s, w);
    RunFacts(s.sched, w);
    ArmSched(s.sched, w);
    SameFlying(s.sched, s'.sched);
    RegisterSlots(s, w);
    ArmedRuns(s, s', w);
    Lift(s, s', {}, {});
  }

  /** Timeout callbacks fit a call that has moved on, and any fiber that is in none. */
  lemma MovedTimeouts(s: State, s': State, f: nat)
    requires f in s'.prog && s'.prog == s.prog[f := s'.prog[f]] && s'.infos == s.infos && s'.clock == s.clock
    requires s'.prog[f].Io? ==> f in s.prog && s.prog[f].Io? && s'.prog[f].call == s.prog[f].call
    ensures forall cb, t :: TimeoutAt(s, cb, t) ==> TimeoutAt(s', cb, t)
  {}

  lemma SameFlying(s: Sched.State, t: Sched.State)
    requires t.queue == s.queue && t.workers == s.workers
    ensures forall cb :: Flying(t, cb) == Flying(s, cb)
  {}

  lemma NoTimeout(s: State, f: nat)
    ensures forall t :: TimeoutAt(s, WakeFiber(f), t)
  {}

  /** The sleeper's timer is its own, and everybody who is waited for keeps their source. */
  lemma SleepSources(s: State, w: nat, ms: nat, id: nat)
    requires Inv(s) && Sound(s) && Outside(s, w) && id !in s.timers.all
    ensures var s' := SleepNext(s, s.sched.workers[w].pc.f, ms, id);
            && (forall fd, e :: 0 <= fd < |s'.io.ctxs| ==> SlotAt(s', fd, e)) && (forall g :: SourceAt(s', g))
  {
    hide SchedOk, Events.Inv, Timers.Inv, Sched.Queued, Flying, Timers.AddTimer, ProgAt, RunAt, PendAt, FlyAt, WakeAt;
    var f, s' := s.sched.workers[w].pc.f, SleepNext(s, s.sched.workers[w].pc.f, ms, id);
    AtEase(s, w);
    Timers.AddTimerKeeps(s.timers, id, ms, WakeFiber(f), false, s.clock);
    SameFlying(s.sched, s'.sched);
    forall fd, e | 0 <= fd < |s'.io.ctxs| ensures SlotAt(s', fd, e) {
      assert SlotAt(s, fd, e);
    }
    forall g ensures SourceAt(s', g) {
      assert SourceAt(s, g);
    }
  }

  lemma BeginSleepKeeps(s: State, w: nat, ms: nat, id: nat)
    requires Inv(s) && Sound(s) && Outside(s, w) && id !in s.timers.all
    ensures Inv(SleepNext(s, s.sched.workers[w].pc.f, ms, id))
  {
    hide SchedOk, Events.Inv, Timers.Inv, Sched.Queued, Flying, Timers.AddTimer, TimeoutAt, RunAt, SlotAt, SourceAt;
    var f, s' := s.sched.workers[w].pc.f, SleepNext(s, s.sched.workers[w].pc.f, ms, id);
    MovedTimeouts(s, s', f);
    NoTimeout(s', f);
    AtEase(s, w);
    RunFacts(s.sched, w);
    ArmSched(s.sched, w);
    Timers.AddTimerKeeps(s.timers, id, ms, WakeFiber(f), false, s.clock);
    SameFlying(s.sched, s'.sched);
    SleepSources(s, w, ms, id);
    ArmedRuns(s, s', w);
    Lift(s, s', {}, {});
  }

  // ----- delivering a wake-up

  lemma ResumeSched(s: Sched.State, f: nat)
    requires SchedOk(s) && f in s.armed
    ensures SchedOk(ResumeNow(s, f))
  {
    hide SchedOk;
    SchedKept(s, Sched.Wake(f));
  }

  lemma EnqueueFlies(s: Sched.State, e: Sched.Entry, cb: Callback)
    ensures Flying(Sched.Enqueue(s, e), cb) == Flying(s, cb) + Is(e.task, cb)
  {
    CallsAppend(s.queue, e, cb);
  }

  lemma ResumeFlies(s: Sched.State, f: nat, cb: Callback)
    ensures Flying(ResumeNow(s, f), cb) == Flying(s, cb)
  {
    CallsAppend(s.queue, Sched.Entry(FiberTask(f), -1), cb);
  }

  /** A waiting fiber without a source is scheduled. */
  lemma ResumeKeeps(s: State, f: nat)
    requires InvBut(s, {f}) && f in s.sched.armed && Waits(s.prog, f)
    requires forall fd, e :: 0 <= fd < |s.io.ctxs| ==> s.io.ctxs[fd].Get(e).fiber != Some(f)
    requires forall id :: id in s.timers.all ==> s.timers.all[id].cb != Some(WakeFiber(f))
    requires InFlight(s, WakeFiber(f)) == 0
    ensures Inv(s.(sched := ResumeNow(s.sched, f)))
  {
    hide SchedOk, Events.Inv, Timers.Inv, Sched.Queued, Flying;
    var s' := s.(sched := ResumeNow(s.sched, f));
    ResumeSched(s.sched, f);
    ArmedFacts(s.sched, f);
    forall cb ensures InFlight(s', cb) == InFlight(s, cb) {
      ResumeFlies(s.sched, f, cb);
    }
    forall v | 0 <= v < |s'.sched.workers| ensures RunAt(s', v) {
      assert RunAt(s, v);
      if s'.sched.workers[v].pc.Running? {
        QueuedAppend(s.sched, s'.sched, Sched.Entry(FiberTask(f), -1), s'.sched.workers[v].pc.f);
      }
    }
    Lift(s, s', {f}, {});
  }

  /** A task of the program, or a callback on its way from the timer set, is queued. */
  lemma CallCalm(s: Sched.State, cb: Callback)
    requires SchedOk(s)
    ensures var t := Sched.Enqueue(s, Sched.Entry(CallTask(cb), -1)); SchedOk(t) && Calm(s, t)
  {
    hide ApartInv, ParkedOk, FineInv, Calm;
    SchedKept(s, Sched.Schedule(cb, -1));
    EnqueueCalm(s, Sched.Entry(CallTask(cb), -1), Sched.Enqueue(s, Sched.Entry(CallTask(cb), -1)));
  }

  lemma CallKeeps(s: State, cb: Callback, out: set<nat>)
    requires InvBut(s, out) && cb.User?
    ensures InvBut(s.(sched := Sched.Enqueue(s.sched, Sched.Entry(CallTask(cb), -1))), out)
  {
    hide SchedOk, Events.Inv, Timers.Inv, ProgAt, SlotAt, PendAt, FlyAt, SourceAt, WakeAt, RunAt, Sched.Queued, Flying,
      Calm;
    CallCalm(s.sched, cb);
    var t := Sched.Enqueue(s.sched, Sched.Entry(CallTask(cb), -1));
    forall x: Callback | !x.User? ensures Flying(t, x) == Flying(s.sched, x) {
      EnqueueFlies(s.sched, Sched.Entry(CallTask(cb), -1), x);
    }
    CalmMove(s, s.(sched := t), out);
  }

  // ----- taking an event away

  /** The event table loses one waiter. */
  lemma UnslotKeeps(s: State, io: Events.State, fd: nat, e: Event)
    requires Inv(s) && Events.Inv(io) && |io.ctxs| == |s.io.ctxs| && fd < |io.ctxs|
    requires forall d, a :: 0 <= d < |io.ctxs| ==>
               io.ctxs[d].Get(a) == if d == fd && a == e then Events.EMPTY else s.io.ctxs[d].Get(a)
    ensures InvBut(s.(io := io), if s.io.ctxs[fd].Get(e).fiber.Some? then {s.io.ctxs[fd].Get(e).fiber.value} else {})
  {
    hide SchedOk, Events.Inv, Timers.Inv, Sched.Queued, Flying;
    var s' := s.(io := io);
    var slot := s.io.ctxs[fd].Get(e);
    assert SlotAt(s, fd, e);
    Lift(s, s', {}, if s.io.ctxs[fd].Get(e).fiber.Some? then {s.io.ctxs[fd].Get(e).fiber.value} else {});
  }

  /** A fiber waiting for an event waits nowhere else. */
  lemma OnlySlot(s: State, fd: nat, e: Event, f: nat)
    requires Inv(s) && fd < |s.io.ctxs| && s.io.ctxs[fd].Get(e).fiber == Some(f)
    ensures f in s.sched.armed && Waits(s.prog, f) && s.prog[f].Io?
    ensures forall d, a :: 0 <= d < |s.io.ctxs| && s.io.ctxs[d].Get(a).fiber == Some(f) ==> d == fd && a == e
    ensures forall id :: id in s.timers.all ==> s.timers.all[id].cb != Some(WakeFiber(f))
    ensures InFlight(s, WakeFiber(f)) == 0
  {
    hide SchedOk, Events.Inv, Timers.Inv, Sched.Queued, Flying;
    assert SlotAt(s, fd, e);
    forall d, a | 0 <= d < |s.io.ctxs| && s.io.ctxs[d].Get(a).fiber == Some(f) ensures d == fd && a == e {
      assert SlotAt(s, d, a);
    }
    forall id | id in s.timers.all ensures s.timers.all[id].cb != Some(WakeFiber(f)) {
      assert PendAt(s, id);
    }
    assert FlyAt(s, WakeFiber(f));
  }

  lemma CancelEffect(io: Events.State, fd: nat, e: Event)
    requires Events.Inv(io) && fd < |io.ctxs| && io.ctxs[fd].events.Has(e)
    ensures var (io', done, tasks) := Events.CancelEvent(io, fd, e, true);
            && done && Events.Inv(io') && |io'.ctxs| == |io.ctxs|
            && (forall d, a :: 0 <= d < |io'.ctxs| ==>
                  io'.ctxs[d].Get(a) == if d == fd && a == e then Events.EMPTY else io.ctxs[d].Get(a))
            && io.ctxs[fd].Get(e).Full() && tasks == [Events.WaiterTask(io.ctxs[fd].Get(e))]
  {
    assert io.ctxs[fd].Coherent();
    Events.CancelEventKeeps(io, fd, e, true);
    Events.TriggerExact(io.ctxs[fd], e);
  }

  lemma GiveOne(s: Sched.State, t: Task)
    ensures Deliver(s, [t]) == Give(s, t)
  {
    assert [t][1..] == [];
  }

  lemma ReleaseKeeps(s: State, fd: nat, e: Event, ok: bool)
    requires Inv(s)
    ensures Inv(Release(s, fd, e, ok))
  {
    hide InvBut, Events.CancelEvent;
    if Registered(s, fd, e) && ok {
      InvIo(s);
      CancelEffect(s.io, fd, e);
      var io, slot := Events.CancelEvent(s.io, fd, e, true).0, s.io.ctxs[fd].Get(e);
      GiveOne(s.sched, Events.WaiterTask(slot));
      UnslotKeeps(s, io, fd, e);
      SlotFacts(s, fd, e);
      var s1 := s.(io := io);
      if slot.fiber.Some? {
        OnlySlot(s, fd, e, slot.fiber.value);
        ResumeKeeps(s1, slot.fiber.value);
        assert Release(s, fd, e, ok) == s1.(sched := ResumeNow(s.sched, slot.fiber.value));
      } else {
        CallKeeps(s1, slot.cb.value, {});
        assert Release(s, fd, e, ok) == s1.(sched := Sched.Enqueue(s.sched, Sched.Entry(CallTask(slot.cb.value), -1)));
      }
    } else {
      NoRelease(s, fd, e, ok);
    }
  }

  lemma NoRelease(s: State, fd: nat, e: Event, ok: bool)
    requires !(Registered(s, fd, e) && ok)
    ensures Release(s, fd, e, ok) == s
  {}

  // ----- several events of a descriptor at once

  lemma {:induction false} DeliverConcat(s: Sched.State, a: seq<Task>, b: seq<Task>)
    ensures Deliver(s, a + b) == Deliver(Deliver(s, a), b)
    decreases |a|
  {
    if a == [] {
      assert a + b == b;
    } else {
      assert (a + b)[1..] == a[1..] + b && (a + b)[0] == a[0];
      DeliverConcat(Give(s, a[0]), a[1..], b);
    }
  }

  function ReleaseIf(s: State, fd: nat, e: Event, b: bool): State
  {
    if b then Release(s, fd, e, true) else s
  }

  /** Handing over a mask is handing over its events one by one. */
  lemma MaskIsReleases(s: State, fd: nat, m: Events.Mask)
    requires Events.Inv(s.io) && fd < |s.io.ctxs|
    requires (m.r ==> s.io.ctxs[fd].events.r) && (m.w ==> s.io.ctxs[fd].events.w) && !m.None()
    ensures var (c, tasks) := Events.TriggerAll(s.io.ctxs[fd], m);
            s.(io := Events.Put(s.io, fd, c, -(m.Count() as int)), sched := Deliver(s.sched, tasks))
              == ReleaseIf(ReleaseIf(s, fd, READ, m.r), fd, WRITE, m.w)
  {
    hide Events.Inv, Deliver;
    var ctx := s.io.ctxs[fd];
    var (c1, t1) := if m.r then Events.Trigger(ctx, READ) else (ctx, []);
    var (c2, t2) := if m.w then Events.Trigger(c1, WRITE) else (c1, []);
    DeliverConcat(s.sched, t1, t2);
    if m.r && m.w {
      assert s.io.ctxs[fd := c1][fd := c2] == s.io.ctxs[fd := c2];
    }
    DeliverNone(s.sched);
    DeliverNone(Deliver(s.sched, t1));
    assert t1 + [] == t1 && [] + t2 == t2;
  }

  lemma DeliverNone(s: Sched.State)
    ensures Deliver(s, []) == s
  {}

  lemma MaskKeeps(s: State, fd: nat, m: Events.Mask)
    requires Inv(s) && fd < |s.io.ctxs|
    requires (m.r ==> s.io.ctxs[fd].events.r) && (m.w ==> s.io.ctxs[fd].events.w) && !m.None()
    ensures var (c, tasks) := Events.TriggerAll(s.io.ctxs[fd], m);
            Inv(s.(io := Events.Put(s.io, fd, c, -(m.Count() as int)), sched := Deliver(s.sched, tasks)))
  {
    hide InvBut, Release, Deliver;
    InvIo(s);
    MaskIsReleases(s, fd, m);
    ReleaseKeeps(s, fd, READ, true);
    ReleaseKeeps(ReleaseIf(s, fd, READ, m.r), fd, WRITE, true);
  }

  lemma ReadyKeeps(s: State, fd: nat, ready: Events.Mask, ok: bool)
    requires Inv(s) && fd < |s.io.ctxs| && Events.Dispatch(s.io, fd, ready, ok).Handled?
    ensures Inv(ReadyNext(s, fd, ready, ok))
  {
    hide InvBut, Deliver;
    if !s.io.ctxs[fd].events.Meet(ready).None() && ok {
      MaskKeeps(s, fd, ready);
    } else {
      DeliverNone(s.sched);
    }
  }

  lemma CloseKeeps(s: State, fd: nat, ok: bool)
    requires Inv(s)
    ensures Inv(CloseNext(s, fd, ok))
  {
    hide InvBut, Deliver;
    if fd < |s.io.ctxs| && !s.io.ctxs[fd].events.None() && ok {
      MaskKeeps(s, fd, s.io.ctxs[fd].events);
    } else {
      DeliverNone(s.sched);
    }
  }

  // ----- taking a wake-up away

  lemma DropSched(s: Sched.State, f: nat)
    requires SchedOk(s) && f in s.armed
    ensures SchedOk(DropNow(s, f))
  {
    hide SchedOk;
    SchedKept(s, Sched.Disarm(f));
  }

  lemma DropKeeps(s: State, f: nat)
    requires InvBut(s, {f}) && f in s.sched.armed && Waits(s.prog, f)
    requires forall fd, e :: 0 <= fd < |s.io.ctxs| ==> s.io.ctxs[fd].Get(e).fiber != Some(f)
    requires forall id :: id in s.timers.all ==> s.timers.all[id].cb != Some(WakeFiber(f))
    requires InFlight(s, WakeFiber(f)) == 0
    ensures Inv(s.(sched := DropNow(s.sched, f)))
  {
    hide SchedOk, Events.Inv, Timers.Inv, Sched.Queued, Flying;
    var s' := s.(sched := DropNow(s.sched, f));
    DropSched(s.sched, f);
    SameFlying(s.sched, s'.sched);
    forall v | 0 <= v < |s'.sched.workers| ensures RunAt(s', v) {
      assert RunAt(s, v);
      if s'.sched.workers[v].pc.Running? {
        SameQueue(s.sched, s'.sched, s'.sched.workers[v].pc.f);
      }
    }
    Lift(s, s', {f}, {});
  }

  lemma DelEffect(io: Events.State, fd: nat, e: Event)
    requires Events.Inv(io) && fd < |io.ctxs| && io.ctxs[fd].events.Has(e)
    ensures var (io', done) := Events.DelEvent(io, fd, e, true);
            && done && Events.Inv(io') && |io'.ctxs| == |io.ctxs|
            && (forall d, a :: 0 <= d < |io'.ctxs| ==>
                  io'.ctxs[d].Get(a) == if d == fd && a == e then Events.EMPTY else io.ctxs[d].Get(a))
  {
    Events.DelEventKeeps(io, fd, e, true);
  }

  lemma DelKeeps(s: State, fd: nat, e: Event, ok: bool)
    requires Inv(s)
    ensures Inv(DelNext(s, fd, e, ok))
  {
    hide InvBut;
    if Registered(s, fd, e) && ok {
      InvIo(s);
      DelEffect(s.io, fd, e);
      var io, slot := Events.DelEvent(s.io, fd, e, true).0, s.io.ctxs[fd].Get(e);
      UnslotKeeps(s, io, fd, e);
      if slot.fiber.Some? {
        OnlySlot(s, fd, e, slot.fiber.value);
        DropKeeps(s.(io := io), slot.fiber.value);
      }
    }
  }
}
