/**
  The hooked calls on top of scheduler, timers and events together: a call that would block arms a timeout, registers
  its descriptor, parks its fiber, and is raced by readiness, timeout, cancellation and close.
 */
module Runtime {
  import opened Options
  import opened Tasks
  import Sched
  import SchedApart
  import opened Flight
  import Timers
  import Events

  // ----- the hooked calls

  /**
    A call's local variables; `info` names its shared record, `first` and `last` are when it armed its timeout for the
    first and the last time.
   */
  datatype Call = Call(
    info: nat, fd: nat, ev: Event, timeout: Option<nat>, first: Option<nat>, last: Option<nat>, timer: Option<nat>,
    cancelled: bool, connect: bool)

  /** Where in the hook a fiber is. */
  datatype Stage = Try | Arming | Registering | Failing | Yielding | Parked | Checking

  datatype Prog = Io(call: Call, at: Stage) | Sleep(timer: nat, at: Stage)

  /** `hands` are callbacks taken from the timer set by a poller that has not scheduled them yet. */
  datatype State = State(
    sched: Sched.State, timers: Timers.State, io: Events.State, prog: map<nat, Prog>, hands: seq<Callback>,
    clock: nat, infos: nat)

  /** How often a callback has left the timer set and not been run. */
  function InFlight(s: State, cb: Callback): nat
  {
    multiset(s.hands)[cb] + Flying(s.sched, cb)
  }

  predicate Waits(prog: map<nat, Prog>, f: nat)
  {
    f in prog && (prog[f].at == Yielding || prog[f].at == Parked)
  }

  /** The record a timeout callback refers to still exists. */
  predicate Live(prog: map<nat, Prog>, cb: Callback)
    requires cb.IoTimeout?
  {
    cb.fiber in prog && prog[cb.fiber].Io? && prog[cb.fiber].call.info == cb.info
  }

  predicate TimerTask(t: Task)
  {
    t.CallTask? && !t.cb.User?
  }

  /** Worker `w` is in code of the program or of a hook. */
  predicate InCode(s: State, w: nat)
  {
    w < |s.sched.workers| && s.sched.workers[w].pc.Running? && !TimerTask(s.sched.workers[w].pc.e.task)
  }

  predicate InHook(s: State, w: nat, at: Stage)
  {
    InCode(s, w) && s.sched.workers[w].pc.f in s.prog && s.prog[s.sched.workers[w].pc.f].at == at
  }

  predicate InIo(s: State, w: nat, at: Stage)
  {
    InHook(s, w, at) && s.prog[s.sched.workers[w].pc.f].Io?
  }

  predicate Outside(s: State, w: nat)
  {
    InCode(s, w) && s.sched.workers[w].pc.f !in s.prog
  }

  // ----- pieces of steps

  /** The running fiber has arranged to be scheduled by somebody else. */
  function ArmNow(s: Sched.State, f: nat): Sched.State
  {
    s.(armed := s.armed + {f}, dropped := s.dropped - {f}, wakes := s.wakes[f := 0])
  }

  /** Scheduling a waiting fiber, whether or not it has been scheduled before. */
  function ResumeNow(s: Sched.State, f: nat): Sched.State
  {
    Sched.Enqueue(s.(armed := s.armed - {f}, wakes := s.wakes[f := (if f in s.wakes then s.wakes[f] else 0) + 1]),
                  Sched.Entry(FiberTask(f), -1))
  }

  function DropNow(s: Sched.State, f: nat): Sched.State
  {
    s.(armed := s.armed - {f}, dropped := s.dropped + {f})
  }

  function Give(s: Sched.State, t: Task): Sched.State
  {
    match t
    case FiberTask(f) => ResumeNow(s, f)
    case CallTask(cb) => Sched.Enqueue(s, Sched.Entry(t, -1))
  }

  function Deliver(s: Sched.State, tasks: seq<Task>): Sched.State
    decreases |tasks|
  {
    if tasks == [] then s else Deliver(Give(s, tasks[0]), tasks[1..])
  }

  /** Takes one event away from its waiter and schedules the waiter. */
  function Release(s: State, fd: nat, e: Event, ok: bool): State
  {
    var (io, _, tasks) := Events.CancelEvent(s.io, fd, e, ok);
    s.(io := io, sched := Deliver(s.sched, tasks))
  }

  predicate Registered(s: State, fd: nat, e: Event)
  {
    fd < |s.io.ctxs| && s.io.ctxs[fd].events.Has(e)
  }

  function CancelMaybe(t: Timers.State, id: Option<nat>): Timers.State
    requires Timers.Inv(t) && (id.Some? ==> id.value in t.all)
  {
    if id.Some? then Timers.Cancel(t, id.value).0 else t
  }

  function Goto(s: State, f: nat, at: Stage): State
    requires f in s.prog
  {
    s.(prog := s.prog[f := s.prog[f].(at := at)])
  }

  function Leave(s: State, f: nat): State
  {
    s.(prog := s.prog - {f})
  }

  // ----- the steps

  datatype Action =
    | Tick(d: nat)
    | Internal(a: Sched.Action)
    | Yield(w: nat, st: Sched.FiberState)
    | BeginIo(w: nat, fd: nat, ev: Event, timeout: Option<nat>, connect: bool)
    | Attempt(w: nat, again: bool)
    | SetTimer(w: nat, id: nat)
    | Register(w: nat, ok: bool)
    | GiveUp(w: nat)
    | Park(w: nat)
    | Wakened(w: nat)
    | Check(w: nat)
    | BeginSleep(w: nat, ms: nat, id: nat)
    | EndSleep(w: nat)
    | RunTimer(w: nat, ok: bool)
    | Expire(probe: nat)
    | HandOver(i: nat)
    | Ready(fd: nat, ready: Events.Mask, ok: bool)
    | CancelEv(fd: nat, e: Event, ok: bool)
    | CloseFd(fd: nat, ok: bool)
    | LateResize(fd: nat)
    | DelEv(fd: nat, e: Event, ok: bool)
    | Watch(fd: nat, e: Event, n: nat, ok: bool)
    | NewTimer(id: nat, ms: nat, n: nat, recurring: bool)
    | CancelTimer(id: nat)
    | RefreshTimer(id: nat)
    | ResetTimer(id: nat, ms: nat, fromNow: bool)

  /** The program holds a handle of this timer: the hooks keep theirs to themselves. */
  predicate ByUser(s: State, id: nat)
  {
    id in s.timers.all && (s.timers.all[id].cb.None? || s.timers.all[id].cb.value.User?)
  }

  /** Scheduler steps that are not part of a hook. */
  predicate IsInternal(a: Sched.Action)
  {
    a.Pick? || a.Start? || a.Decrement? || a.Settle? || a.GoIdle? || a.LeaveIdle? || a.Exit? || a.Stop? || a.Spawn?
    || (a.Schedule? && a.cb.User?)
  }

  predicate Sound(s: State)
  {
    && Timers.Inv(s.timers) && |s.io.ctxs| >= Events.INITIAL_SIZE
    && forall f :: f in s.prog && s.prog[f].Io? && s.prog[f].call.timer.Some? ==>
      s.prog[f].call.timer.value in s.timers.all
  }

  predicate Enabled(s: State, a: Action)
  {
    match a
    case Tick(_) => true
    case Internal(a) => IsInternal(a) && Sched.Enabled(s.sched, a)
    case Yield(w, st) => Outside(s, w) && Sched.InSwap(st)
    case BeginIo(w, _, _, _, _) => Outside(s, w)
    case Attempt(w, _) => InIo(s, w, Try)
    case SetTimer(w, id) => InIo(s, w, Arming) && id !in s.timers.all
    case Register(w, _) =>
      InIo(s, w, Registering) && var c := s.prog[s.sched.workers[w].pc.f].call; !Registered(s, c.fd, c.ev)
    case GiveUp(w) => InIo(s, w, Failing)
    case Park(w) => InHook(s, w, Yielding)
    case Wakened(w) => InIo(s, w, Parked)
    case Check(w) => InIo(s, w, Checking)
    case BeginSleep(w, _, id) => Outside(s, w) && id !in s.timers.all
    case EndSleep(w) => InHook(s, w, Parked) && s.prog[s.sched.workers[w].pc.f].Sleep?
    case RunTimer(w, _) =>
      w < |s.sched.workers| && s.sched.workers[w].pc.Running? && TimerTask(s.sched.workers[w].pc.e.task)
    case Expire(_) => true
    case HandOver(i) => i < |s.hands|
    case Ready(fd, ready, ok) => fd < |s.io.ctxs| && Events.Dispatch(s.io, fd, ready, ok).Handled?
    case CancelEv(_, _, _) => true
    case CloseFd(_, _) => true
    case LateResize(_) => true
    case DelEv(_, _, _) => true
    case Watch(fd, e, _, _) => !Registered(s, fd, e)
    case NewTimer(id, _, _, _) => id !in s.timers.all
    case CancelTimer(id) => ByUser(s, id)
    case RefreshTimer(id) => ByUser(s, id)
    case ResetTimer(id, _, _) => ByUser(s, id)
  }

  /** The callback of a hook's timer, run by a worker as one step. */
  function Fire(s: State, cb: Callback, ok: bool): State
    requires !cb.User?
  {
    match cb
    case WakeFiber(f) => s.(sched := ResumeNow(s.sched, f))
    case IoTimeout(f, info, fd, ev) =>
      if Live(s.prog, cb) && !s.prog[f].call.cancelled
      then Release(s.(prog := s.prog[f := s.prog[f].(call := s.prog[f].call.(cancelled := true))]), fd, ev, ok)
      else s
  }

  function SetTimerNext(s: State, f: nat, id: nat): State
    requires Sound(s) && f in s.prog && s.prog[f].Io? && id !in s.timers.all
  {
    var c := s.prog[f].call;
    match c.timeout
    case None => s.(prog := s.prog[f := Io(c.(timer := None), Registering)])
    case Some(t) =>
      var cb := IoTimeout(f, c.info, c.fd, c.ev);
      var c' := c.(timer := Some(id), first := if c.first.Some? then c.first else Some(s.clock), last := Some(s.clock));
      s.(timers := Timers.AddTimer(s.timers, id, t, cb, false, s.clock).0, prog := s.prog[f := Io(c', Registering)])
  }

  function RegisterNext(s: State, f: nat, ok: bool): State
    requires Sound(s) && f in s.prog && s.prog[f].Io?
  {
    var c := s.prog[f].call;
    var s1 := s.(io := Events.AddEvent(s.io, c.fd, c.ev, Events.ByFiber(f), ok).0);
    if ok then Goto(s1.(sched := ArmNow(s1.sched, f)), f, Yielding) else Goto(s1, f, Failing)
  }

  function SleepNext(s: State, f: nat, ms: nat, id: nat): State
    requires Sound(s) && id !in s.timers.all
  {
    s.(timers := Timers.AddTimer(s.timers, id, ms, WakeFiber(f), false, s.clock).0,
       sched := ArmNow(s.sched, f), prog := s.prog[f := Sleep(id, Yielding)])
  }

  /** A worker runs a hook's timer callback, which then ends and swaps out. */
  function TimerNext(s: State, w: nat, ok: bool): State
    requires w < |s.sched.workers| && s.sched.workers[w].pc.Running? && TimerTask(s.sched.workers[w].pc.e.task)
  {
    var s1 := Fire(s, s.sched.workers[w].pc.e.task.cb, ok);
    FireKeepsWorkers(s, s.sched.workers[w].pc.e.task.cb, ok);
    s1.(sched := Sched.YieldStep(s1.sched, w, Sched.TERM))
  }

  function ReadyNext(s: State, fd: nat, ready: Events.Mask, ok: bool): State
    requires fd < |s.io.ctxs| && Events.Dispatch(s.io, fd, ready, ok).Handled?
  {
    var o := Events.Dispatch(s.io, fd, ready, ok);
    s.(io := o.s, sched := Deliver(s.sched, o.tasks))
  }

  function CloseNext(s: State, fd: nat, ok: bool): State
  {
    var (io, _, tasks) := Events.CancelAll(s.io, fd, ok);
    s.(io := io, sched := Deliver(s.sched, tasks))
  }

  function DelNext(s: State, fd: nat, e: Event, ok: bool): State
  {
    var (io, done) := Events.DelEvent(s.io, fd, e, ok);
    var s1 := s.(io := io);
    if done && s.io.ctxs[fd].Get(e).fiber.Some? then s1.(sched := DropNow(s.sched, s.io.ctxs[fd].Get(e).fiber.value))
        else s1
  }

  function Next(s: State, a: Action): State
    requires Sound(s) && Enabled(s, a)
  {
    hide Sched.Next, Sched.YieldStep, Deliver, Timers.Inv;
    match a
    case Tick(d) => s.(clock := s.clock + d)
    case Internal(a) => s.(sched := Sched.Next(s.sched, a))
    case Yield(w, st) => s.(sched := Sched.YieldStep(s.sched, w, st))
    case BeginIo(w, fd, ev, timeout, connect) =>
      var c := Call(s.infos, fd, ev, timeout, None, None, None, false, connect);
      s.(prog := s.prog[s.sched.workers[w].pc.f := Io(c, Try)], infos := s.infos + 1)
    case Attempt(w, again) =>
      var f := s.sched.workers[w].pc.f;
      if again then Goto(s, f, Arming) else Leave(s, f)
    case SetTimer(w, id) => SetTimerNext(s, s.sched.workers[w].pc.f, id)
    case Register(w, ok) => RegisterNext(s, s.sched.workers[w].pc.f, ok)
    case GiveUp(w) =>
      var f := s.sched.workers[w].pc.f;
      Leave(s.(timers := CancelMaybe(s.timers, s.prog[f].call.timer)), f)
    case Park(w) =>
      var f := s.sched.workers[w].pc.f;
      Goto(s.(sched := Sched.YieldStep(s.sched, w, Sched.HOLD)), f, Parked)
    case Wakened(w) =>
      var f := s.sched.workers[w].pc.f;
      Goto(s.(timers := CancelMaybe(s.timers, s.prog[f].call.timer)), f, Checking)
    case Check(w) =>
      var f := s.sched.workers[w].pc.f;
      if s.prog[f].call.cancelled || s.prog[f].call.connect then Leave(s, f) else Goto(s, f, Try)
    case BeginSleep(w, ms, id) => SleepNext(s, s.sched.workers[w].pc.f, ms, id)
    case EndSleep(w) => Leave(s, s.sched.workers[w].pc.f)
    case RunTimer(w, ok) => TimerNext(s, w, ok)
    case Expire(probe) =>
      var (timers, cbs) := Timers.ListExpired(s.timers, s.clock, probe);
      s.(timers := timers, hands := s.hands + cbs)
    case HandOver(i) =>
      s.(hands := s.hands[..i] + s.hands[i + 1..],
         sched := Sched.Enqueue(s.sched, Sched.Entry(CallTask(s.hands[i]), -1)))
    case Ready(fd, ready, ok) => ReadyNext(s, fd, ready, ok)
    case CancelEv(fd, e, ok) => Release(s, fd, e, ok)
    case CloseFd(fd, ok) => CloseNext(s, fd, ok)
    case LateResize(fd) => s.(io := Events.ResizeLate(s.io, fd))
    case DelEv(fd, e, ok) => DelNext(s, fd, e, ok)
    case Watch(fd, e, n, ok) => s.(io := Events.AddEvent(s.io, fd, e, Events.ByCallback(User(n)), ok).0)
    case NewTimer(id, ms, n, recurring) =>
      s.(timers := Timers.AddTimer(s.timers, id, ms, User(n), recurring, s.clock).0)
    case CancelTimer(id) => s.(timers := Timers.Cancel(s.timers, id).0)
    case RefreshTimer(id) => s.(timers := Timers.Refresh(s.timers, id, s.clock).0)
    case ResetTimer(id, ms, fromNow) => s.(timers := Timers.Reset(s.timers, id, ms, fromNow, s.clock).0)
  }

  lemma {:induction false} DeliverKeepsWorkers(s: Sched.State, tasks: seq<Task>)
    ensures Deliver(s, tasks).workers == s.workers && Deliver(s, tasks).fibers == s.fibers
    decreases |tasks|
  {
    if tasks != [] {
      DeliverKeepsWorkers(Give(s, tasks[0]), tasks[1..]);
    }
  }

  lemma FireKeepsWorkers(s: State, cb: Callback, ok: bool)
    requires !cb.User?
    ensures Fire(s, cb, ok).sched.workers == s.sched.workers && Fire(s, cb, ok).sched.fibers == s.sched.fibers
  {
    if cb.IoTimeout? {
      DeliverKeepsWorkers(s.sched, Events.CancelEvent(s.io, cb.fd, cb.event, ok).2);
    }
  }

  /**
    The steps after which the runtime is still in order: nobody takes a fiber that its last worker has not settled, and
    no late resize drops a registered context.
   */
  ghost predicate Careful(s: State, a: Action)
    requires Enabled(s, a)
  {
    (a.Internal? ==> !SchedApart.TakesTooEarly(s.sched, a.a)) && (a.LateResize? ==> !Events.CutsOff(s.io, a.fd))
  }

  function Step(s: State, a: Action): State
  {
    if Sound(s) && Enabled(s, a) then Next(s, a) else s
  }

  function Run(s: State, acts: seq<Action>): State
    decreases |acts|
  {
    if acts == [] then s else Run(Step(s, acts[0]), acts[1..])
  }
}
