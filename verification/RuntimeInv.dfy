/** What every step of the composed runtime keeps. */
module RuntimeInv {
  import opened Options
  import opened Tasks
  import opened Words
  import Sched
  import opened SchedCounts
  import opened SchedApart
  import opened SchedSingle
  import opened Flight
  import Timers
  import Events
  import opened Runtime

  // ----- the invariant, point by point

  ghost predicate SchedOk(s: Sched.State)
  {
    SingleInv(s) && FineInv(s)
  }

  /** The call's timeout has passed at `t`, counted from its first wait, or did not fit 64 bits when last armed. */
  predicate Elapsed(c: Call, t: nat)
  {
    c.timeout.Some? && c.first.Some? && c.last.Some? &&
    (c.last.value + c.timeout.value >= WORD || c.first.value + c.timeout.value <= t)
  }

  predicate Blocked(st: Sched.FiberState)
  {
    st == Sched.EXEC || st == Sched.HOLD
  }

  /** A call's timer is its own, and it is marked as timed out only after its time. */
  predicate ProgAt(s: State, f: nat)
    requires f in s.prog
  {
    && f in s.sched.fibers && Blocked(s.sched.fibers[f])
    && match s.prog[f]
       case Io(c, _) =>
         && c.info < s.infos && (c.cancelled ==> Elapsed(c, s.clock))
         && (c.first.Some? <==> c.last.Some?) && (c.first.Some? ==> c.first.value <= c.last.value <= s.clock)
         && (c.timer.Some? ==>
               && c.timer.value in s.timers.all
               && var cb := s.timers.all[c.timer.value].cb; cb.None? || cb == Some(IoTimeout(f, c.info, c.fd, c.ev)))
       case Sleep(id, at) => id in s.timers.all && (at == Yielding || at == Parked)
  }

  /** A running fiber is waited for or queued only on its way to the yield; timer callbacks run outside hooks. */
  predicate RunAt(s: State, w: nat)
    requires w < |s.sched.workers|
  {
    var pc := s.sched.workers[w].pc;
    pc.Running? ==>
      && ((pc.f in s.prog && s.prog[pc.f].at == Yielding) || (pc.f !in s.sched.armed && !Sched.Queued(s.sched, pc.f)))
      && (TimerTask(pc.e.task) ==> pc.f !in s.prog)
  }

  /** A registered fiber is one whose call waits for exactly this event. */
  predicate SlotAt(s: State, fd: nat, e: Event)
    requires fd < |s.io.ctxs|
  {
    var slot := s.io.ctxs[fd].Get(e);
    && (slot.cb.Some? ==> slot.cb.value.User?)
    && (slot.fiber.Some? ==>
          var f := slot.fiber.value;
          f in s.sched.armed && Waits(s.prog, f) && s.prog[f].Io? && s.prog[f].call.fd == fd && s.prog[f].call.ev == e)
  }

  /** A timeout callback that is due at `t` belongs to a call that has ended, or to one whose time is up at `t`. */
  predicate TimeoutAt(s: State, cb: Callback, t: nat)
  {
    cb.IoTimeout? ==>
      && cb.info < s.infos
      && (Live(s.prog, cb) ==>
            var c := s.prog[cb.fiber].call; Elapsed(c, t) && c.fd == cb.fd && c.ev == cb.event)
  }

  predicate SleepsOn(s: State, f: nat, id: nat)
  {
    f in s.sched.armed && Waits(s.prog, f) && s.prog[f].Sleep? && s.prog[f].timer == id
  }

  predicate PendAt(s: State, id: nat)
    requires id in s.timers.all
  {
    var t := s.timers.all[id];
    t.cb.Some? ==>
      && t.next < WORD
      && (t.cb.value.User? || !t.recurring)
      && TimeoutAt(s, t.cb.value, t.next)
      && (t.cb.value.WakeFiber? ==> SleepsOn(s, t.cb.value.fiber, id))
  }

  predicate FlyAt(s: State, cb: Callback)
  {
    InFlight(s, cb) > 0 ==>
      && TimeoutAt(s, cb, s.clock)
      && (cb.WakeFiber? ==>
            && InFlight(s, cb) == 1 && cb.fiber in s.prog && s.prog[cb.fiber].Sleep?
            && var id := s.prog[cb.fiber].timer;
               SleepsOn(s, cb.fiber, id) && id in s.timers.all && s.timers.all[id].cb.None?)
  }

  /** Where the wake-up of a waiting fiber is to come from: its event, its timer, or the callback on its way. */
  predicate HasSource(s: State, f: nat)
    requires f in s.prog
  {
    match s.prog[f]
    case Io(c, _) => c.fd < |s.io.ctxs| && s.io.ctxs[c.fd].Get(c.ev).fiber == Some(f)
    case Sleep(id, _) =>
      (id in s.timers.all && s.timers.all[id].cb == Some(WakeFiber(f))) || InFlight(s, WakeFiber(f)) > 0
  }

  predicate SourceAt(s: State, f: nat)
  {
    f in s.sched.armed ==> Waits(s.prog, f) && HasSource(s, f)
  }

  predicate WakeAt(s: State, f: nat)
  {
    Waits(s.prog, f) ==>
      f in s.sched.wakes && (f in s.sched.armed || s.sched.wakes[f] == 1 || f in s.sched.dropped)
  }

  /** The invariant, except that the fibers in `out` may have lost their source. */
  ghost predicate InvBut(s: State, out: set<nat>)
  {
    && SchedOk(s.sched)
    && Timers.Inv(s.timers) && s.timers.previous <= s.clock
    && Events.Inv(s.io)
    && (forall f :: f in s.prog ==> ProgAt(s, f))
    && (forall w :: 0 <= w < |s.sched.workers| ==> RunAt(s, w))
    && (forall fd, e :: 0 <= fd < |s.io.ctxs| ==> SlotAt(s, fd, e))
    && (forall id :: id in s.timers.all ==> PendAt(s, id))
    && (forall cb :: FlyAt(s, cb))
    && (forall f :: f !in out ==> SourceAt(s, f))
    && (forall f :: WakeAt(s, f))
  }

  ghost predicate Inv(s: State)
  {
    InvBut(s, {})
  }

  lemma InvIsSound(s: State, out: set<nat>)
    requires InvBut(s, out)
    ensures Sound(s)
  {
    forall f | f in s.prog && s.prog[f].Io? && s.prog[f].call.timer.Some?
      ensures s.prog[f].call.timer.value in s.timers.all
    {
      assert ProgAt(s, f);
    }
  }

  /** A step keeps the invariant if it keeps every point of it. */
  lemma Lift(s: State, s': State, out: set<nat>, out': set<nat>)
    requires InvBut(s, out)
    requires SchedOk(s'.sched) && Timers.Inv(s'.timers) && s'.timers.previous <= s'.clock && Events.Inv(s'.io)
    requires forall f :: f in s'.prog && (f in s.prog ==> ProgAt(s, f)) ==> ProgAt(s', f)
    requires forall w :: 0 <= w < |s'.sched.workers| && (w < |s.sched.workers| ==> RunAt(s, w)) ==> RunAt(s', w)
    requires forall fd, e :: 0 <= fd < |s'.io.ctxs| && (fd < |s.io.ctxs| ==> SlotAt(s, fd, e)) ==> SlotAt(s', fd, e)
    requires forall id :: id in s'.timers.all && (id in s.timers.all ==> PendAt(s, id)) ==> PendAt(s', id)
    requires forall cb :: FlyAt(s, cb) ==> FlyAt(s', cb)
    requires forall f :: f !in out' && (f !in out ==> SourceAt(s, f)) ==> SourceAt(s', f)
    requires forall f :: WakeAt(s, f) ==> WakeAt(s', f)
    ensures InvBut(s', out')
  {
    hide SchedOk, Timers.Inv, Events.Inv, ProgAt, RunAt, SlotAt, PendAt, FlyAt, SourceAt, WakeAt;
  }

  // ----- facts about the scheduler

  lemma ArmedFacts(s: Sched.State, f: nat)
    requires SchedOk(s) && f in s.armed
    ensures f in s.wakes && s.wakes[f] == 0 && f in s.fibers && Blocked(s.fibers[f])
  {}

  lemma RunFacts(s: Sched.State, w: nat)
    requires SchedOk(s) && w < |s.workers| && s.workers[w].pc.Running?
    ensures s.workers[w].pc.f in s.fibers && s.fibers[s.workers[w].pc.f] == Sched.EXEC
    ensures forall v :: 0 <= v < |s.workers| && v != w && s.workers[v].pc.Running? ==>
        s.workers[v].pc.f != s.workers[w].pc.f
  {
    assert WorkerOk(s, s.workers[w]);
    forall v | 0 <= v < |s.workers| && v != w && s.workers[v].pc.Running?
        ensures s.workers[v].pc.f != s.workers[w].pc.f {
      assert Apart(s.workers[v], s.workers[w]);
    }
  }

  lemma SchedKept(s: Sched.State, a: Sched.Action)
    requires SchedOk(s) && Sched.Enabled(s, a) && Disciplined(s, a) && !TakesTooEarly(s, a)
    ensures SchedOk(Sched.Next(s, a))
  {
    hide SingleInv, FineInv, Sched.Next, Sched.Enabled, Disciplined, TakesTooEarly;
    StepKeepsSingle(s, a);
    SchedCounts.StepKeeps(s, a);
  }

  // ----- the scheduler and the callbacks on their way to it move, nothing else

  lemma SchedMove(s: State, s': State, out: set<nat>, more: set<nat>)
    requires InvBut(s, out) && SchedOk(s'.sched) && s' == s.(sched := s'.sched, hands := s'.hands)
    requires s'.sched.armed == s.sched.armed && s'.sched.wakes == s.sched.wakes && s.sched.dropped <= s'.sched.dropped
    requires forall cb: Callback :: !cb.User? ==> InFlight(s', cb) <= InFlight(s, cb)
    requires forall f :: f !in more ==> InFlight(s', WakeFiber(f)) == InFlight(s, WakeFiber(f))
    requires forall f :: f in s.prog ==> f in s'.sched.fibers && Blocked(s'.sched.fibers[f])
    requires forall w :: 0 <= w < |s'.sched.workers| ==> RunAt(s', w)
    ensures InvBut(s', out + more)
  {
    hide SchedOk, Timers.Inv, Events.Inv, InFlight;
    Lift(s, s', out, out + more);
  }

  // ----- the timer set moves, nothing else

  lemma TimersMove(s: State, t: Timers.State)
    requires Inv(s) && Timers.Inv(t) && t.previous <= s.clock && s.timers.all.Keys <= t.all.Keys
    requires forall id :: id in s.timers.all ==>
               || t.all[id].cb == s.timers.all[id].cb
               || (t.all[id].cb.None? && !s.timers.all[id].cb.value.WakeFiber?)
    requires forall id :: id in t.all && t.all[id].cb.Some? && !t.all[id].cb.value.User? ==>
               id in s.timers.all && t.all[id] == s.timers.all[id]
    requires forall id :: id in t.all && t.all[id].cb.Some? ==>
               t.all[id].next < WORD || (id in s.timers.all && t.all[id] == s.timers.all[id])
    ensures Inv(s.(timers := t))
  {
    hide SchedOk, Timers.Inv, Events.Inv, Flying, Sched.Queued;
    var s' := s.(timers := t);
    Lift(s, s', {}, {});
  }

  // ----- one fiber's place in a hook moves, nothing else

  /** The callbacks of a call's earlier waits still fit it. */
  predicate SameCall(s: State, f: nat, p: Prog)
  {
    p.Io? && (p.call.info < s.infos ==>
      f in s.prog && s.prog[f].Io? &&
      var c, c' := s.prog[f].call, p.call;
      c'.info == c.info && c'.fd == c.fd && c'.ev == c.ev && c'.timeout == c.timeout
      && (c.first.Some? ==> c'.first == c.first)
      && (c.last.Some? ==> c'.last.Some? && c.last.value <= c'.last.value))
  }

  lemma OldTimeouts(s: State, s': State, f: nat, p: Option<Prog>)
    requires s' == s.(prog := if p.Some? then s.prog[f := p.value] else s.prog - {f}, infos := s'.infos)
    requires s.infos <= s'.infos && (p.Some? ==> SameCall(s, f, p.value))
    ensures forall cb, t :: TimeoutAt(s, cb, t) ==> TimeoutAt(s', cb, t)
  {}

  lemma ProgMove(s: State, s': State, w: nat, p: Option<Prog>)
    requires Inv(s) && InCode(s, w)
    requires var f := s.sched.workers[w].pc.f;
             && f !in s.sched.armed && !Sched.Queued(s.sched, f)
             && s' == s.(prog := if p.Some? then s.prog[f := p.value] else s.prog - {f}, infos := s'.infos)
             && s.infos <= s'.infos
             && (p.Some? ==> SameCall(s, f, p.value) && p.value.at != Yielding && p.value.at != Parked && ProgAt(s', f))
    ensures Inv(s')
  {
    hide SchedOk, Timers.Inv, Events.Inv, Flying, Sched.Queued, TimeoutAt;
    var f := s.sched.workers[w].pc.f;
    RunFacts(s.sched, w);
    OldTimeouts(s, s', f, p);
    Lift(s, s', {}, {});
  }

  /** The same call or sleep, at another place of its wait or marked as timed out. */
  predicate Continues(p: Prog, q: Prog)
  {
    && (p.Io? <==> q.Io?) && (p.at == Yielding || p.at == Parked <==> q.at == Yielding || q.at == Parked)
    && (p.Io? ==> q.call == p.call.(cancelled := q.call.cancelled)) && (p.Sleep? ==> q.timer == p.timer)
  }

  lemma Touch(s: State, s': State, f: nat)
    requires Inv(s) && f in s.prog && f in s'.prog && s' == s.(prog := s.prog[f := s'.prog[f]])
    requires Continues(s.prog[f], s'.prog[f]) && ProgAt(s', f)
    requires forall w :: 0 <= w < |s'.sched.workers| ==> RunAt(s', w)
    ensures Inv(s')
  {
    hide SchedOk, Timers.Inv, Events.Inv, Flying, Sched.Queued, RunAt, TimeoutAt;
    forall g ensures Waits(s'.prog, g) <==> Waits(s.prog, g) {}
    SameTimeouts(s, s', f);
    Lift(s, s', {}, {});
  }

  lemma SameTimeouts(s: State, s': State, f: nat)
    requires f in s.prog && f in s'.prog && s' == s.(prog := s.prog[f := s'.prog[f]])
    requires Continues(s.prog[f], s'.prog[f])
    ensures forall cb, t :: TimeoutAt(s, cb, t) <==> TimeoutAt(s', cb, t)
  {}
}
