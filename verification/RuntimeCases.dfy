/** Runs of the composed runtime in which it does not do what it should. */
module RuntimeCases {
  import opened Options
  import opened Tasks
  import opened Words
  import Sched
  import SchedSingle
  import Timers
  import Events
  import opened Runtime
  import opened RuntimeTheorems
  import RuntimeInv
  import RuntimeWakes
  import RuntimeWhole
  import RuntimeStop

  // ----- a fiber that runs

  /** A new runtime with two workers. */
  function New(clock: nat): State
  {
    State(Sched.State([], map[], [Sched.Worker(0, Sched.Scan, None), Sched.Worker(1, Sched.Scan, None)], 0, 0, false,
        false,
                      {}, {}, map[], [], []),
          Timers.State(map[], [], false, 0), Events.State(seq(32, _ => Events.IDLE), 0, {}), map[], [], clock, 0)
  }

  lemma NewIsStart(clock: nat)
    ensures Start(New(clock)) && Sound(New(clock))
  {
    StartIsGood(New(clock));
    RuntimeInv.InvIsSound(New(clock), {});
  }

  function Lifted(acts: seq<Sched.Action>): seq<Action>
  {
    if acts == [] then [] else [Internal(acts[0])] + Lifted(acts[1..])
  }

  /** Steps of the scheduler alone are its own run. */
  lemma {:induction false} InternalRun(s: State, acts: seq<Sched.Action>)
    requires Sound(s) && forall i :: 0 <= i < |acts| ==> IsInternal(acts[i])
    ensures Run(s, Lifted(acts)) == s.(sched := Sched.Run(s.sched, acts))
    decreases |acts|
  {
    hide Sched.Enabled, Sched.Next;
    if acts != [] {
      var s1 := Step(s, Internal(acts[0]));
      assert s1 == s.(sched := Sched.Step(s.sched, acts[0]));
      InternalRun(s1, acts[1..]);
      assert Lifted(acts)[0] == Internal(acts[0]) && Lifted(acts)[1..] == Lifted(acts[1..]);
    }
  }

  const BUSY := SchedSingle.Pair([], Sched.EXEC, Sched.Running(7, false, SchedSingle.TASK), Sched.Scan, 1, {}, map[],
                                 [SchedSingle.TASK], [SchedSingle.TASK])

  const BEGIN := [Sched.Spawn(7, -1), Sched.Pick(0), Sched.Start(0, 0)]

  lemma Begins(clock: nat)
    ensures Run(New(clock), Lifted(BEGIN)) == New(clock).(sched := BUSY)
  {
    hide Run, Sched.Run, Sound;
    NewIsStart(clock);
    InternalRun(New(clock), BEGIN);
    SchedSingle.FiberStarts(New(clock).sched);
  }

  // ----- its call waits

  /** Worker 0 runs fiber 7, which is in a hook at some place or in none. */
  predicate Runs7(s: State)
  {
    && Sound(s) && |s.sched.workers| == 2
    && s.sched.workers[0] == Sched.Worker(0, Sched.Running(7, false, SchedSingle.TASK), None)
  }

  function CallOf7(timeout: Option<nat>): Call
  {
    Call(0, 5, READ, timeout, None, None, None, false, false)
  }

  lemma Calls7(s: State, timeout: Option<nat>)
    requires Runs7(s) && s.prog == map[] && s.infos == 0
    ensures Step(s, BeginIo(0, 5, READ, timeout, false)) == s.(prog := map[7 := Io(CallOf7(timeout), Try)], infos := 1)
    ensures Step(s.(prog := map[7 := Io(CallOf7(timeout), Try)], infos := 1), Attempt(0, true))
         == s.(prog := map[7 := Io(CallOf7(timeout), Arming)], infos := 1)
  {
    assert map[7 := Io(CallOf7(timeout), Try)][7 := Io(CallOf7(timeout), Arming)]
        == map[7 := Io(CallOf7(timeout), Arming)];
  }

  /** The call once its timeout is armed by timer 0, if it has one. */
  function Armed7(timeout: Option<nat>, clock: nat): Call
  {
    if timeout.None? then CallOf7(timeout)
    else CallOf7(timeout).(timer := Some(0), first := Some(clock), last := Some(clock))
  }

  function Timers7(s: State, timeout: Option<nat>): Timers.State
    requires Timers.Inv(s.timers) && 0 !in s.timers.all
  {
    match timeout
    case None => s.timers
    case Some(ms) => Timers.AddTimer(s.timers, 0, ms, IoTimeout(7, 0, 5, READ), false, s.clock).0
  }

  lemma Arms7(s: State, timeout: Option<nat>)
    requires Runs7(s) && s.prog == map[7 := Io(CallOf7(timeout), Arming)] && 0 !in s.timers.all
    ensures Step(s, SetTimer(0, 0))
         == s.(prog := map[7 := Io(Armed7(timeout, s.clock), Registering)], timers := Timers7(s, timeout))
    ensures Sound(Step(s, SetTimer(0, 0)))
  {
    hide Timers.AddTimer, Timers.Inv;
    assert forall p, q: Prog :: map[7 := p][7 := q] == map[7 := q];
    if timeout.Some? {
      Timers.AddTimerKeeps(s.timers, 0, timeout.value, IoTimeout(7, 0, 5, READ), false, s.clock);
    }
  }

  lemma Registers7(s: State, c: Call)
    requires Runs7(s) && s.prog == map[7 := Io(c, Registering)] && c.fd == 5 && c.ev == READ && !Registered(s, 5, READ)
    ensures Step(s, Register(0, true))
         == s.(prog := map[7 := Io(c, Yielding)], io := Events.AddEvent(s.io, 5, READ, Events.ByFiber(7), true).0,
               sched := ArmNow(s.sched, 7))
    ensures Sound(Step(s, Register(0, true)))
  {
    hide Events.AddEvent, Timers.Inv;
    assert map[7 := Io(c, Registering)][7 := Io(c, Yielding)] == map[7 := Io(c, Yielding)];
    assert |Events.AddEvent(s.io, 5, READ, Events.ByFiber(7), true).0.ctxs| >= 32 by {
      Grows(s.io);
    }
  }

  lemma Grows(io: Events.State)
    requires |io.ctxs| >= 32
    ensures |Events.AddEvent(io, 5, READ, Events.ByFiber(7), true).0.ctxs| >= 32
  {}

  /** Fiber 7 has swapped out to be held and its worker has settled it. */
  function Gone7(s: Sched.State): Sched.State
    requires |s.workers| == 2
  {
    s.(fibers := s.fibers[7 := Sched.HOLD], active := s.active - 1,
       workers := s.workers[0 := Sched.Worker(0, Sched.Scan, None)])
  }

  /** Fiber 7 has swapped out to be held. */
  function Out7(s: Sched.State): Sched.State
    requires |s.workers| == 2
  {
    s.(fibers := s.fibers[7 := Sched.HOLD],
       workers := s.workers[0 := Sched.Worker(0, Sched.Yielded(7, false), None)])
  }

  lemma Swaps7(s: State, c: Call)
    requires Runs7(s) && s.prog == map[7 := Io(c, Yielding)] && 7 in s.sched.armed
    ensures Step(s, Park(0)) == s.(prog := map[7 := Io(c, Parked)], sched := Out7(s.sched))
  {
    hide Sound, Sched.Queued;
    assert map[7 := Io(c, Yielding)][7 := Io(c, Parked)] == map[7 := Io(c, Parked)];
  }

  /** Another place of the same call, with events and scheduler moved on. */
  lemma StillSound(s: State, c: Call, t: State)
    requires Sound(s) && 7 in s.prog && s.prog[7].Io? && s.prog[7].call == c
    requires t.timers == s.timers && |t.io.ctxs| >= |s.io.ctxs|
    requires forall f :: f in t.prog ==> f == 7 && t.prog[7].Io? && t.prog[7].call.timer == c.timer
    ensures Sound(t)
  {
    hide Timers.Inv;
  }

  lemma Parks7(s: State, c: Call)
    requires Runs7(s) && s.prog == map[7 := Io(c, Yielding)] && 7 in s.sched.armed
    ensures Run(s, [Park(0), Internal(Sched.Decrement(0)), Internal(Sched.Settle(0))])
        == s.(prog := map[7 := Io(c, Parked)], sched := Gone7(s.sched))
  {
    hide Sound, Step, Out7, Gone7;
    Swaps7(s, c);
    StillSound(s, c, Step(s, Park(0)));
    Settles7(Step(s, Park(0)), s.sched);
    Three(s, Park(0), Internal(Sched.Decrement(0)), Internal(Sched.Settle(0)));
  }

  lemma Settles7(s: State, t: Sched.State)
    requires Sound(s) && |t.workers| == 2 && s.sched == Out7(t)
    ensures Step(Step(s, Internal(Sched.Decrement(0))), Internal(Sched.Settle(0))) == s.(sched := Gone7(t))
  {
    hide Timers.Inv;
    var s1 := Step(s, Internal(Sched.Decrement(0)));
    assert s1.sched.workers == t.workers[0 := Sched.Worker(0, Sched.Settling(7, false), None)];
    assert s1.sched.workers[0 := Sched.Worker(0, Sched.Scan, None)]
        == t.workers[0 := Sched.Worker(0, Sched.Scan, None)];
    assert t.fibers[7 := Sched.HOLD][7 := Sched.HOLD] == t.fibers[7 := Sched.HOLD];
  }

  function CallIn7(timeout: Option<nat>): seq<Action>
  {
    [BeginIo(0, 5, READ, timeout, false), Attempt(0, true), SetTimer(0, 0), Register(0, true)]
  }

  function WaitOf7(timeout: Option<nat>): seq<Action>
  {
    CallIn7(timeout) + [Park(0), Internal(Sched.Decrement(0)), Internal(Sched.Settle(0))]
  }

  lemma Three(s: State, a: Action, b: Action, c: Action)
    ensures Run(s, [a, b, c]) == Step(Step(Step(s, a), b), c)
  {
    hide Step;
    assert [a, b, c][1..] == [b, c] && [b, c][1..] == [c] && [c][1..] == [];
    assert Run(s, [a, b, c]) == Run(Step(s, a), [b, c]);
    assert Run(Step(s, a), [b, c]) == Run(Step(Step(s, a), b), [c]);
  }

  lemma Four(s: State, a: Action, b: Action, c: Action, d: Action)
    ensures Run(s, [a, b, c, d]) == Step(Step(Step(Step(s, a), b), c), d)
  {
    hide Step;
    assert [a, b, c, d][1..] == [b, c, d];
    assert Run(s, [a, b, c, d]) == Run(Step(s, a), [b, c, d]);
    Three(Step(s, a), b, c, d);
  }

  /** A running fiber's call up to where it has parked. */
  lemma Waits7(s: State, timeout: Option<nat>)
    requires Runs7(s) && s.prog == map[] && s.infos == 0 && 0 !in s.timers.all && !Registered(s, 5, READ)
    ensures Timers.Inv(s.timers)
    ensures Run(s, WaitOf7(timeout))
         == s.(prog := map[7 := Io(Armed7(timeout, s.clock), Parked)], infos := 1, timers := Timers7(s, timeout),
               io := Events.AddEvent(s.io, 5, READ, Events.ByFiber(7), true).0, sched := Gone7(ArmNow(s.sched, 7)))
  {
    hide Timers.AddTimer, Timers.Inv, Events.AddEvent, Gone7, Step, Timers7;
    Calls7(s, timeout);
    var s2 := s.(prog := map[7 := Io(CallOf7(timeout), Arming)], infos := 1);
    Arms7(s2, timeout);
    var s3 := Step(s2, SetTimer(0, 0));
    Registers7(s3, Armed7(timeout, s.clock));
    var s4 := Step(s3, Register(0, true));
    Four(s, BeginIo(0, 5, READ, timeout, false), Attempt(0, true), SetTimer(0, 0), Register(0, true));
    RuntimeStop.RunConcat(s, CallIn7(timeout), [Park(0), Internal(Sched.Decrement(0)), Internal(Sched.Settle(0))]);
    Parks7(s4, Armed7(timeout, s.clock));
    assert Timers7(s2, timeout) == Timers7(s, timeout) by {
      SameTimers7(s, s2, timeout);
    }
  }

  lemma SameTimers7(s: State, t: State, timeout: Option<nat>)
    requires Timers.Inv(s.timers) && 0 !in s.timers.all && t.timers == s.timers && t.clock == s.clock
    ensures Timers7(s, timeout) == Timers7(t, timeout)
  {}

  lemma WaitIsWhole(timeout: Option<nat>)
    ensures RuntimeWhole.WholeRun(WaitOf7(timeout))
  {
    var park := [Park(0), Internal(Sched.Decrement(0)), Internal(Sched.Settle(0))];
    assert park[3..] == [];
    assert RuntimeWhole.WholeRun(park);
    Plain4(CallIn7(timeout));
    RuntimeWhole.WholeConcat(CallIn7(timeout), park);
  }

  /** Steps that are no part of a swap make a whole run. */
  lemma {:induction false} Plain4(acts: seq<Action>)
    requires forall i :: 0 <= i < |acts| ==> !acts[i].LateResize? && RuntimeWhole.Leaver(acts[i]).None?
    requires forall i :: 0 <= i < |acts| && acts[i].Internal? ==> !acts[i].a.Decrement? && !acts[i].a.Settle?
    ensures RuntimeWhole.WholeRun(acts)
    decreases |acts|
  {
    if acts != [] {
      Plain4(acts[1..]);
    }
  }

  lemma BeginIsWhole()
    ensures RuntimeWhole.WholeRun(Lifted(BEGIN))
  {
    assert BEGIN[1..] == [Sched.Pick(0), Sched.Start(0, 0)];
    assert BEGIN[1..][1..] == [Sched.Start(0, 0)];
    assert BEGIN[1..][1..][1..] == [];
    assert Lifted(BEGIN)
        == [Internal(Sched.Spawn(7, -1))] + ([Internal(Sched.Pick(0))] + ([Internal(Sched.Start(0, 0))] + []));
    Plain4(Lifted(BEGIN));
  }

  // ----- stopping while a call waits

  /**
    A fiber that still runs when timers and pending events are read registers and parks before the scheduler is:
    the answer is to stop, and the fiber waits for its event.
   */
  lemma StopCanMissAWaiter()
    ensures exists s: State, a: seq<Action>, b: seq<Action>, c: seq<Action> ::
              && Start(s) && AllCareful(s, a + b + c)
              && RuntimeStop.Answers(Run(s, a), Run(s, a + b), Run(s, a + b + c)) && InWait(Run(s, a + b + c), 7)
  {
    hide Run, Events.AddEvent, AllCareful, RuntimeWhole.WholeRun;
    var s := New(1);
    NewIsStart(1);
    var stop := [Internal(Sched.Stop)];
    var a, b, c := Lifted(BEGIN) + stop, [], WaitOf7(None);
    Begins(1);
    RuntimeStop.RunConcat(s, Lifted(BEGIN), stop);
    Flags(s.(sched := BUSY));
    var s0 := Run(s, a);
    assert s0 == s.(sched := BUSY.(autoStop := true, stopping := true));
    Waits7(s0, None);
    var s2 := Run(s0, c);
    assert Sched.Stopping(s2.sched) && InWait(s2, 7);
    assert a + b == a;
    RuntimeStop.RunConcat(s, a, c);
    assert RuntimeStop.Answers(Run(s, a), Run(s, a + b), Run(s, a + b + c));
    BeginIsWhole();
    Plain4(stop);
    RuntimeWhole.WholeConcat(Lifted(BEGIN), stop);
    WaitIsWhole(None);
    RuntimeWhole.WholeConcat(a, c);
    RuntimeWhole.WholeRunsAreCareful(s, a + b + c);
  }

  lemma Flags(s: State)
    requires Sound(s)
    ensures Run(s, [Internal(Sched.Stop)]) == s.(sched := s.sched.(autoStop := true, stopping := true))
  {
    assert [Internal(Sched.Stop)][1..] == [];
  }

  lemma LastTimer()
    ensures var t := Step(New(0), NewTimer(0, Timers.NEVER, 0, false));
            t.timers.order == [0] && RuntimeStop.ReadsNoTimer(t)
  {
    hide Timers.AddTimer, Timers.Inv;
    NewIsStart(0);
    Timers.AddFirst(New(0).timers, Timers.NEVER, User(0), 0);
  }

  /** At time zero a timer set for the last moment there is reads as no timer. */
  lemma ZeroClockHidesATimer()
    ensures exists s: State, a: seq<Action> ::
              && Start(s) && AllCareful(s, a)
              && RuntimeStop.ReadsNoTimer(Run(s, a)) && Run(s, a).timers.order == [0]
  {
    hide RuntimeWhole.WholeRun, Timers.AddTimer, AllCareful, Start, RuntimeStop.ReadsNoTimer, Step;
    var s, act := New(0), NewTimer(0, Timers.NEVER, 0, false);
    NewIsStart(0);
    assert [act][1..] == [];
    LastTimer();
    assert Run(s, [act]) == Step(s, act);
    Plain4([act]);
    RuntimeWhole.WholeRunsAreCareful(s, [act]);
  }

  // ----- a timeout reported at once

  const LATE := IoTimeout(7, 0, 5, READ)
  const CALL := Sched.Entry(CallTask(LATE), -1)

  /** A timeout of `ms` armed at time `k` does not fit; its deadline wraps to `d`, which is past. */
  predicate Wraps(k: nat, ms: nat, d: nat)
  {
    k < WORD && ms < WORD && k + ms >= WORD && d == k + ms - WORD
  }

  /** The call of fiber 7, told that it has timed out. */
  function Told7(k: nat, ms: nat): Prog
  {
    Io(Armed7(Some(ms), k).(cancelled := true), Parked)
  }

  /** Fiber 7 has parked at time `k` with a timeout whose deadline wraps. */
  predicate Parked7(s: State, k: nat, ms: nat, d: nat)
  {
    && Sound(s) && s.clock == k && s.infos == 1 && s.hands == []
    && s.prog == map[7 := Io(Armed7(Some(ms), k), Parked)]
    && s.timers == Timers.State(map[0 := Timers.Timer(ms, d, false, Some(LATE))], [0], true, 0)
    && s.io.ctxs[5] == Events.IDLE.(events := Events.Mask(true, false), read := Events.SlotFor(Events.ByFiber(7)))
    && s.sched.queue == [] && s.sched.fibers == map[7 := Sched.HOLD]
    && s.sched.workers == [Sched.Worker(0, Sched.Scan, None), Sched.Worker(1, Sched.Scan, None)]
  }

  lemma ParksEarly(s: State, k: nat, ms: nat, d: nat)
    requires s == New(k).(sched := BUSY) && Wraps(k, ms, d)
    ensures Parked7(Run(s, WaitOf7(Some(ms))), k, ms, d)
  {
    hide Run, Events.AddEvent, Timers.AddTimer, Timers.Deadline;
    NewIsStart(k);
    Waits7(s, Some(ms));
    Timers.AddFirst(s.timers, ms, LATE, k);
    WrappedDeadline(k, ms, d);
    Fills(s.io);
    assert map[7 := Sched.EXEC][7 := Sched.HOLD] == map[7 := Sched.HOLD];
  }

  lemma WrappedDeadline(k: nat, ms: nat, d: nat)
    requires Wraps(k, ms, d)
    ensures Timers.Deadline(k, ms) == d
  {
    assert (k + ms) % WORD == k + ms - WORD;
  }

  lemma Fills(io: Events.State)
    requires |io.ctxs| == 32 && io.ctxs[5] == Events.IDLE
    ensures var io' := Events.AddEvent(io, 5, READ, Events.ByFiber(7), true).0;
            && |io'.ctxs| == 32
            && io'.ctxs[5] == Events.IDLE.(events := Events.Mask(true, false), read :=
              Events.SlotFor(Events.ByFiber(7)))
  {}

  /** The poller finds the timer due and schedules its callback. */
  lemma ComesDue(s: State, k: nat, ms: nat, d: nat)
    requires Parked7(s, k, ms, d) && Wraps(k, ms, d)
    ensures Step(Step(s, Expire(0)), HandOver(0))
         == s.(timers := Timers.State(map[0 := Timers.Timer(ms, d, false, None)], [], true, k),
               sched := Sched.Enqueue(s.sched, CALL))
  {
    hide Timers.ListExpired, Events.AddEvent;
    Expires(s.timers, k, ms, d);
    var s1 := Step(s, Expire(0));
    assert s1.hands == [LATE];
    assert [LATE][..0] + [LATE][1..] == [];
  }

  lemma Expires(t: Timers.State, k: nat, ms: nat, d: nat)
    requires t == Timers.State(map[0 := Timers.Timer(ms, d, false, Some(LATE))], [0], true, 0) && Wraps(k, ms, d)
    ensures Timers.Inv(t)
    ensures Timers.ListExpired(t, k, 0)
         == (Timers.State(map[0 := Timers.Timer(ms, d, false, None)], [], true, k), [LATE])
  {
    hide Timers.ListExpired, Timers.DueIds;
    assert Timers.Inv(t);
    Timers.ListExpiredExact(t, k, 0);
    var (t', cbs) := Timers.ListExpired(t, k, 0);
    var due := Timers.DueIds(t, k, t.order);
    assert Timers.Due(t, k, 0) && 0 in due;
    assert due == [0];
    assert cbs == [LATE];
    assert t'.all == map[0 := Timers.Timer(ms, d, false, None)];
    FirstIsSet(t');
  }

  lemma FirstIsSet(t: Timers.State)
    requires Timers.Inv(t)
    ensures t.order != [] ==> t.order[0] in t.all && t.all[t.order[0]].cb.Some?
  {}

  /** The callback marks the call and schedules its fiber. */
  lemma Tells7(s: State, k: nat, ms: nat)
    requires |s.io.ctxs| >= 32 && s.prog == map[7 := Io(Armed7(Some(ms), k), Parked)]
    requires s.io.ctxs[5] == Events.IDLE.(events := Events.Mask(true, false), read := Events.SlotFor(Events.ByFiber(7)))
    ensures var t := Fire(s, LATE, true);
            && t == s.(prog := map[7 := Told7(k, ms)], io := t.io, sched := ResumeNow(s.sched, 7))
            && |t.io.ctxs| == |s.io.ctxs|
  {
    hide Deliver, Events.CancelEvent;
    Delivers(s.sched);
    Frees(s.io);
    assert map[7 := Io(Armed7(Some(ms), k), Parked)][7 := Told7(k, ms)] == map[7 := Told7(k, ms)];
  }

  /** Worker 1 runs the callback and swaps out. */
  lemma Fires(s: State, k: nat, ms: nat)
    requires Sound(s) && s.prog == map[7 := Io(Armed7(Some(ms), k), Parked)]
    requires s.io.ctxs[5] == Events.IDLE.(events := Events.Mask(true, false), read := Events.SlotFor(Events.ByFiber(7)))
    requires s.sched.queue == [] && s.sched.fibers == map[7 := Sched.HOLD, 8 := Sched.EXEC]
    requires s.sched.workers
        == [Sched.Worker(0, Sched.Scan, None), Sched.Worker(1, Sched.Running(8, true, CALL), Some(8))]
    ensures var t := Step(s, RunTimer(1, true));
            && Sound(t) && t.prog == map[7 := Told7(k, ms)] && t.clock == s.clock && t.timers == s.timers
            && t.sched.queue == [SchedSingle.TASK] && t.sched.fibers == map[7 := Sched.HOLD, 8 := Sched.TERM]
            && t.sched.workers == [Sched.Worker(0, Sched.Scan, None), Sched.Worker(1, Sched.Yielded(8, true), Some(8))]
  {
    hide Fire, Sound, Sched.YieldStep, ResumeNow, TimerNext;
    Sized(s);
    Tells7(s, k, ms);
    Swaps8(s.sched);
    Rings(s, ResumeNow(s.sched, 7));
    StillSound(s, Armed7(Some(ms), k), Step(s, RunTimer(1, true)));
  }

  lemma Sized(s: State)
    requires Sound(s)
    ensures |s.io.ctxs| >= 32
  {}

  lemma Rings(s: State, t: Sched.State)
    requires Sound(s) && 1 < |s.sched.workers| && s.sched.workers[1].pc == Sched.Running(8, true, CALL)
    requires Fire(s, LATE, true).sched == t && t.workers == s.sched.workers
    ensures Step(s, RunTimer(1, true)) == Fire(s, LATE, true).(sched := Sched.YieldStep(t, 1, Sched.TERM))
  {
    hide Fire, Sound, Sched.YieldStep;
  }

  lemma Swaps8(s: Sched.State)
    requires s.queue == [] && s.fibers == map[7 := Sched.HOLD, 8 := Sched.EXEC]
    requires s.workers == [Sched.Worker(0, Sched.Scan, None), Sched.Worker(1, Sched.Running(8, true, CALL), Some(8))]
    ensures ResumeNow(s, 7).workers == s.workers
    ensures var t := Sched.YieldStep(ResumeNow(s, 7), 1, Sched.TERM);
            && t.queue == [SchedSingle.TASK] && t.fibers == map[7 := Sched.HOLD, 8 := Sched.TERM]
            && t.workers == [Sched.Worker(0, Sched.Scan, None), Sched.Worker(1, Sched.Yielded(8, true), Some(8))]
  {
    hide Sched.Queued;
    assert [] + [SchedSingle.TASK] == [SchedSingle.TASK];
    assert map[7 := Sched.HOLD, 8 := Sched.EXEC][8 := Sched.TERM] == map[7 := Sched.HOLD, 8 := Sched.TERM];
  }

  lemma Frees(io: Events.State)
    requires |io.ctxs| >= 32
    requires io.ctxs[5] == Events.IDLE.(events := Events.Mask(true, false), read := Events.SlotFor(Events.ByFiber(7)))
    ensures var (io', _, tasks) := Events.CancelEvent(io, 5, READ, true);
        |io'.ctxs| == |io.ctxs| && tasks == [FiberTask(7)]
  {}

  lemma Delivers(s: Sched.State)
    ensures Deliver(s, [FiberTask(7)]) == ResumeNow(s, 7)
  {
    assert [FiberTask(7)][1..] == [];
  }

  lemma Settles8(s: State)
    requires Sound(s) && s.sched.fibers == map[7 := Sched.HOLD, 8 := Sched.TERM]
    requires s.sched.workers == [Sched.Worker(0, Sched.Scan, None), Sched.Worker(1, Sched.Yielded(8, true), Some(8))]
    ensures var t := Step(Step(s, Internal(Sched.Decrement(1))), Internal(Sched.Settle(1)));
            && t == s.(sched := t.sched) && t.sched.queue == s.sched.queue
            && t.sched.fibers == map[7 := Sched.HOLD, 8 := Sched.INIT]
            && t.sched.workers == [Sched.Worker(0, Sched.Scan, None), Sched.Worker(1, Sched.Scan, Some(8))]
  {
    hide Timers.Inv;
  }

  /** A worker with nothing to do takes the only task there is, for anybody. */
  lemma Takes(s: State, w: nat, e: Sched.Entry)
    requires Sound(s) && w < |s.sched.workers| && s.sched.workers[w].pc.Scan? && s.sched.queue == [e] && e.thread == -1
    requires e.task.FiberTask? ==> e.task.fiber in s.sched.fibers && s.sched.fibers[e.task.fiber] == Sched.HOLD
    ensures Step(s, Internal(Sched.Pick(w)))
         == s.(sched := s.sched.(queue := [], taken := s.sched.taken + [e], active := s.sched.active + 1,
                                 workers := s.sched.workers[w := s.sched.workers[w].(pc := Sched.Picked(e))]))
  {
    assert Sched.FirstEligible(s.sched.queue, s.sched.fibers, s.sched.workers[w].tid, 0) == 0;
    assert [e][..0] + [e][1..] == [];
  }

  lemma StartsCall(s: State)
    requires Sound(s) && s.sched.fibers == map[7 := Sched.HOLD]
    requires s.sched.workers == [Sched.Worker(0, Sched.Scan, None), Sched.Worker(1, Sched.Picked(CALL), None)]
    ensures var t := Step(s, Internal(Sched.Start(1, 8)));
            && t == s.(sched := t.sched) && t.sched.queue == s.sched.queue
            && t.sched.fibers == map[7 := Sched.HOLD, 8 := Sched.EXEC]
            && t.sched.workers
               == [Sched.Worker(0, Sched.Scan, None), Sched.Worker(1, Sched.Running(8, true, CALL), Some(8))]
  {}

  lemma StartsFiber(s: State)
    requires Sound(s) && s.sched.fibers == map[7 := Sched.HOLD, 8 := Sched.INIT] && |s.sched.workers| == 2
    requires s.sched.workers[0] == Sched.Worker(0, Sched.Picked(SchedSingle.TASK), None)
    ensures var t := Step(s, Internal(Sched.Start(0, 9)));
            && t == s.(sched := t.sched) && |t.sched.workers| == 2
            && t.sched.workers[0] == Sched.Worker(0, Sched.Running(7, false, SchedSingle.TASK), None)
  {}

  lemma Returns(s: State, k: nat, ms: nat)
    requires Runs7(s) && s.prog == map[7 := Told7(k, ms)]
    ensures var t := Step(s, Wakened(0));
            && t.clock == s.clock && InIo(t, 0, Checking) && t.sched == s.sched
            && t.prog[7].call == Told7(k, ms).call
  {
    hide Timers.Cancel;
  }

  function Fire7(): seq<Action>
  {
    [Expire(0), HandOver(0), Internal(Sched.Pick(1)), Internal(Sched.Start(1, 8))]
  }

  function Settle8(): seq<Action>
  {
    [RunTimer(1, true), Internal(Sched.Decrement(1)), Internal(Sched.Settle(1))]
  }

  function Last(): seq<Action>
  {
    [Internal(Sched.Pick(0)), Internal(Sched.Start(0, 9)), Wakened(0)]
  }

  lemma TimesOut(s: State, k: nat, ms: nat, d: nat)
    requires Parked7(s, k, ms, d) && Wraps(k, ms, d)
    ensures var t := Run(s, Fire7() + Settle8());
            && Sound(t) && t.clock == k && t.prog == map[7 := Told7(k, ms)]
            && t.sched.queue == [SchedSingle.TASK] && t.sched.fibers == map[7 := Sched.HOLD, 8 := Sched.INIT]
            && t.sched.workers == [Sched.Worker(0, Sched.Scan, None), Sched.Worker(1, Sched.Scan, Some(8))]
  {
    hide Step, Fire, Sched.Enqueue;
    ComesDue(s, k, ms, d);
    var s2 := Step(Step(s, Expire(0)), HandOver(0));
    Queues(s);
    Settled(s2, k, ms, d);
    Takes(s2, 1, CALL);
    var s3 := Step(s2, Internal(Sched.Pick(1)));
    StartsCall(s3);
    var s4 := Step(s3, Internal(Sched.Start(1, 8)));
    Fires(s4, k, ms);
    Settles8(Step(s4, RunTimer(1, true)));
    Four(s, Expire(0), HandOver(0), Internal(Sched.Pick(1)), Internal(Sched.Start(1, 8)));
    RuntimeStop.RunConcat(s, Fire7(), Settle8());
    Three(s4, RunTimer(1, true), Internal(Sched.Decrement(1)), Internal(Sched.Settle(1)));
  }

  lemma Queues(s: State)
    requires s.sched.queue == []
    ensures Sched.Enqueue(s.sched, CALL).queue == [CALL]
    ensures Sched.Enqueue(s.sched, CALL) == s.sched.(queue := [CALL], log := s.sched.log + [CALL])
  {}

  lemma Settled(s: State, k: nat, ms: nat, d: nat)
    requires |s.io.ctxs| >= 32 && s.timers == Timers.State(map[0 := Timers.Timer(ms, d, false, None)], [], true, k)
    requires forall f :: f in s.prog && s.prog[f].Io? && s.prog[f].call.timer.Some? ==> s.prog[f].call.timer.value == 0
    ensures Sound(s)
  {}

  lemma WakesAgain(s: State, k: nat, ms: nat)
    requires Sound(s) && s.clock == k && s.prog == map[7 := Told7(k, ms)]
    requires s.sched.queue == [SchedSingle.TASK] && s.sched.fibers == map[7 := Sched.HOLD, 8 := Sched.INIT]
    requires s.sched.workers == [Sched.Worker(0, Sched.Scan, None), Sched.Worker(1, Sched.Scan, Some(8))]
    ensures var t := Run(s, Last());
            && t.clock == k && InIo(t, 0, Checking) && t.sched.workers[0].pc.f == 7
            && t.prog[7].call == Told7(k, ms).call
  {
    hide Step;
    Takes(s, 0, SchedSingle.TASK);
    var s1 := Step(s, Internal(Sched.Pick(0)));
    StartsFiber(s1);
    var s2 := Step(s1, Internal(Sched.Start(0, 9)));
    Returns(s2, k, ms);
    Three(s, Internal(Sched.Pick(0)), Internal(Sched.Start(0, 9)), Wakened(0));
  }

  lemma TimeoutIsWhole()
    ensures RuntimeWhole.WholeRun(Fire7() + Settle8() + Last())
  {
    assert Settle8()[3..] == [];
    assert RuntimeWhole.WholeRun(Settle8());
    Plain4(Fire7());
    Plain4(Last());
    RuntimeWhole.WholeConcat(Fire7(), Settle8());
    RuntimeWhole.WholeConcat(Fire7() + Settle8(), Last());
  }

  /** At time `k` a call whose timeout of `ms` was first armed at `k` is told that it has timed out. */
  ghost predicate ToldAtOnce(s: State, acts: seq<Action>, w: nat, k: nat, ms: nat)
  {
    && Start(s) && AllCareful(s, acts)
    && var t := Run(s, acts);
       && t.clock == k && InIo(t, w, Checking)
       && var c := t.prog[t.sched.workers[w].pc.f].call;
          c.cancelled && c.timeout == Some(ms) && c.first == Some(k)
  }

  lemma TimeoutCanBeEarly(k: nat, ms: nat)
    requires k < WORD && ms < WORD && k + ms >= WORD
    ensures exists s: State, acts: seq<Action> :: ToldAtOnce(s, acts, 0, k, ms)
  {
    hide Run, Step, AllCareful, RuntimeWhole.WholeRun;
    var s, d := New(k), k + ms - WORD;
    NewIsStart(k);
    Begins(k);
    var s1 := Run(s, Lifted(BEGIN));
    ParksEarly(s1, k, ms, d);
    var s2 := Run(s1, WaitOf7(Some(ms)));
    TimesOut(s2, k, ms, d);
    var s3 := Run(s2, Fire7() + Settle8());
    WakesAgain(s3, k, ms);
    var rest := Fire7() + Settle8() + Last();
    var acts := Lifted(BEGIN) + (WaitOf7(Some(ms)) + rest);
    RuntimeStop.RunConcat(s, Lifted(BEGIN), WaitOf7(Some(ms)) + rest);
    RuntimeStop.RunConcat(s1, WaitOf7(Some(ms)), rest);
    RuntimeStop.RunConcat(s2, Fire7() + Settle8(), Last());
    BeginIsWhole();
    WaitIsWhole(Some(ms));
    TimeoutIsWhole();
    RuntimeWhole.WholeConcat(WaitOf7(Some(ms)), rest);
    RuntimeWhole.WholeConcat(Lifted(BEGIN), WaitOf7(Some(ms)) + rest);
    RuntimeWhole.WholeRunsAreCareful(s, acts);
    assert ToldAtOnce(s, acts, 0, k, ms);
  }

  /**
    A call with a timeout other than zero can be told at the time of its first wait that it has timed out, exactly if
    its deadline does not fit into 64 bits.
   */
  lemma EarlyExactly(k: nat, ms: nat)
    requires k < WORD && 0 < ms < WORD
    ensures (exists s: State, acts: seq<Action>, w: nat :: ToldAtOnce(s, acts, w, k, ms)) <==> k + ms >= WORD
  {
    hide Run, AllCareful;
    if s: State, acts: seq<Action>, w: nat :| ToldAtOnce(s, acts, w, k, ms) {
      RuntimeWakes.TimedOutOnlyAfter(s, acts, w);
    }
    if k + ms >= WORD {
      TimeoutCanBeEarly(k, ms);
    }
  }
}
