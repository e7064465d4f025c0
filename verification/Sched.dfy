/** The scheduler: workers sharing a task queue, one step per critical section or state write. */
module Sched {
  import opened Options
  import opened Tasks

  datatype FiberState = INIT | HOLD | EXEC | TERM | READY | EXCEPT

  /** A queued task, for one thread or, with -1, for any. */
  datatype Entry = Entry(task: Task, thread: int)

  /** Where a worker is in its loop. */
  datatype Pc =
    | Scan                                    // at the head, or between tasks
    | Picked(e: Entry)                        // a task taken and counted, not yet swapped in
    | Running(f: nat, own: bool, e: Entry)    // in a fiber: its own callback fiber, or one from the queue
    | Yielded(f: nat, own: bool)              // the fiber has written its state and swapped out
    | Settling(f: nat, own: bool)             // the task is no longer counted; its state is about to be looked at
    | InIdle
    | Exited

  datatype Worker = Worker(tid: int, pc: Pc, cbFiber: Option<nat>)

  /**
    The shared state; `armed` holds the fibers somebody else will schedule once, `dropped` those whose wake-up was
    taken away or never arranged, `wakes` how often each was scheduled since it last arranged to be; `log` and
    `taken` are all tasks ever scheduled and picked.
   */
  datatype State = State(
    queue: seq<Entry>, fibers: map<nat, FiberState>, workers: seq<Worker>, active: int, idle: int,
    autoStop: bool, stopping: bool,
    armed: set<nat>, dropped: set<nat>, wakes: map<nat, nat>, log: seq<Entry>, taken: seq<Entry>)

  // ----- pieces of steps

  function Enqueue(s: State, e: Entry): State
  {
    s.(queue := s.queue + [e], log := s.log + [e])
  }

  function SetPc(s: State, w: nat, pc: Pc): State
    requires w < |s.workers|
  {
    s.(workers := s.workers[w := s.workers[w].(pc := pc)])
  }

  function SetFiber(s: State, f: nat, st: FiberState): State
  {
    s.(fibers := s.fibers[f := st])
  }

  /** A worker may take a task meant for it or for anybody, unless its fiber is still executing. */
  predicate Eligible(e: Entry, fibers: map<nat, FiberState>, tid: int)
  {
    && (e.thread == -1 || e.thread == tid)
    && !(e.task.FiberTask? && e.task.fiber in fibers && fibers[e.task.fiber] == EXEC)
  }

  function FirstEligible(queue: seq<Entry>, fibers: map<nat, FiberState>, tid: int, i: nat): (r: nat)
    requires i <= |queue|
    ensures i <= r <= |queue|
    ensures r < |queue| ==> Eligible(queue[r], fibers, tid)
    ensures forall j :: i <= j < r ==> !Eligible(queue[j], fibers, tid)
    decreases |queue| - i
  {
    if i == |queue| || Eligible(queue[i], fibers, tid) then i else FirstEligible(queue, fibers, tid, i + 1)
  }

  predicate Queued(s: State, f: nat)
  {
    exists i :: 0 <= i < |s.queue| && s.queue[i].task == FiberTask(f)
  }

  function Remove(queue: seq<Entry>, k: nat): seq<Entry>
    requires k < |queue|
  {
    queue[..k] + queue[k + 1..]
  }

  // ----- the steps

  datatype Action =
    | Schedule(cb: Callback, thread: int)
    | Spawn(f: nat, thread: int)
    | Pick(w: nat)
    | Start(w: nat, spare: nat)
    | YieldWrite(w: nat, st: FiberState)
    | Decrement(w: nat)
    | Settle(w: nat)
    | Arm(w: nat)
    | Wake(f: nat)
    | Disarm(f: nat)
    | GoIdle(w: nat)
    | LeaveIdle(w: nat)
    | Exit(w: nat)
    | Stop

  predicate InSwap(st: FiberState)
  {
    st == HOLD || st == READY || st == TERM || st == EXCEPT
  }

  predicate Enabled(s: State, a: Action)
  {
    match a
    case Schedule(_, _) => true
    case Spawn(f, _) => f !in s.fibers
    case Pick(w) => w < |s.workers| && s.workers[w].pc.Scan?
    case Start(w, spare) =>
      && w < |s.workers| && s.workers[w].pc.Picked?
      && (match s.workers[w].pc.e.task
          case FiberTask(f) => f in s.fibers && s.fibers[f] != EXEC
          case CallTask(_) =>
            match s.workers[w].cbFiber
            case Some(f) => f in s.fibers && (s.fibers[f] == TERM || s.fibers[f] == INIT || s.fibers[f] == EXCEPT)
            case None => spare !in s.fibers)
    case YieldWrite(w, st) => w < |s.workers| && s.workers[w].pc.Running? && InSwap(st)
    case Decrement(w) => w < |s.workers| && s.workers[w].pc.Yielded?
    case Settle(w) => w < |s.workers| && s.workers[w].pc.Settling? && s.workers[w].pc.f in s.fibers
    case Arm(w) => w < |s.workers| && s.workers[w].pc.Running? && s.workers[w].pc.f !in s.armed
    case Wake(f) => f in s.armed
    case Disarm(f) => f in s.armed
    case GoIdle(w) => w < |s.workers| && s.workers[w].pc.Scan?
    case LeaveIdle(w) => w < |s.workers| && s.workers[w].pc.InIdle?
    case Exit(w) => w < |s.workers| && s.workers[w].pc.Scan?
    case Stop => true
  }

  function PickStep(s: State, w: nat): State
    requires Enabled(s, Pick(w))
  {
    var k := FirstEligible(s.queue, s.fibers, s.workers[w].tid, 0);
    if k == |s.queue| then s
    else SetPc(s.(queue := Remove(s.queue, k), taken := s.taken + [s.queue[k]], active := s.active + 1),
               w, Picked(s.queue[k]))
  }

  /** Swaps the task in; a fiber that has ended is dropped, a callback gets the worker's spare fiber or a new one. */
  function StartStep(s: State, w: nat, spare: nat): State
    requires Enabled(s, Start(w, spare))
  {
    var e := s.workers[w].pc.e;
    match e.task
    case FiberTask(f) =>
      if s.fibers[f] == TERM || s.fibers[f] == EXCEPT then SetPc(s.(active := s.active - 1), w, Scan)
      else SetPc(SetFiber(s, f, EXEC), w, Running(f, false, e))
    case CallTask(_) =>
      var f := if s.workers[w].cbFiber.Some? then s.workers[w].cbFiber.value else spare;
      var s1 := SetFiber(s, f, EXEC);
      s1.(workers := s1.workers[w := Worker(s1.workers[w].tid, Running(f, true, e), Some(f))])
  }

  /** Writes the fiber's state and swaps out; one that holds itself back with no wake-up arranged counts as dropped. */
  function YieldStep(s: State, w: nat, st: FiberState): State
    requires Enabled(s, YieldWrite(w, st))
  {
    var f := s.workers[w].pc.f;
    var lost := st == HOLD && f !in s.armed && !Queued(s, f);
    SetPc(SetFiber(s, f, st).(dropped := if lost then s.dropped + {f} else s.dropped),
          w, Yielded(f, s.workers[w].pc.own))
  }

  /** What a worker does with the state it finds: requeue, recycle its callback fiber, or mark as parked. */
  function SettleStep(s: State, w: nat): State
    requires Enabled(s, Settle(w))
  {
    var f, own := s.workers[w].pc.f, s.workers[w].pc.own;
    var st := s.fibers[f];
    var s1 := SetPc(s, w, Scan);
    var s2 := if own && st != TERM && st != EXCEPT
              then s1.(workers := s1.workers[w := s1.workers[w].(cbFiber := None)]) else s1;
    if st == READY then Enqueue(s2, Entry(FiberTask(f), -1))
    else if st == TERM || st == EXCEPT then (if own then SetFiber(s2, f, INIT) else s2)
    else SetFiber(s2, f, HOLD)
  }

  function Next(s: State, a: Action): State
    requires Enabled(s, a)
  {
    match a
    case Schedule(cb, thread) => Enqueue(s, Entry(CallTask(cb), thread))
    case Spawn(f, thread) => Enqueue(SetFiber(s, f, INIT), Entry(FiberTask(f), thread))
    case Pick(w) => PickStep(s, w)
    case Start(w, spare) => StartStep(s, w, spare)
    case YieldWrite(w, st) => YieldStep(s, w, st)
    case Decrement(w) => SetPc(s.(active := s.active - 1), w, Settling(s.workers[w].pc.f, s.workers[w].pc.own))
    case Settle(w) => SettleStep(s, w)
    case Arm(w) =>
      var f := s.workers[w].pc.f;
      s.(armed := s.armed + {f}, dropped := s.dropped - {f}, wakes := s.wakes[f := 0])
    case Wake(f) =>
      Enqueue(s.(armed := s.armed - {f}, wakes := s.wakes[f := (if f in s.wakes then s.wakes[f] else 0) + 1]),
              Entry(FiberTask(f), -1))
    case Disarm(f) => s.(armed := s.armed - {f}, dropped := s.dropped + {f})
    case GoIdle(w) => SetPc(s.(idle := s.idle + 1), w, InIdle)
    case LeaveIdle(w) => SetPc(s.(idle := s.idle - 1), w, Scan)
    case Exit(w) => SetPc(s, w, Exited)
    case Stop => s.(autoStop := true, stopping := true)
  }

  /** Every step of every worker, in any order; one that is not possible changes nothing. */
  function Step(s: State, a: Action): State
  {
    if Enabled(s, a) then Next(s, a) else s
  }

  function Run(s: State, acts: seq<Action>): State
    decreases |acts|
  {
    if acts == [] then s else Run(Step(s, acts[0]), acts[1..])
  }

  /** A scheduler with some workers and nothing to do. */
  predicate Fresh(s: State)
  {
    && s.queue == [] && s.fibers == map[] && s.active == 0 && s.idle == 0 && s.armed == {} && s.dropped == {}
    && s.wakes == map[] && s.log == [] && s.taken == []
    && (forall w :: 0 <= w < |s.workers| ==> s.workers[w].pc == Scan && s.workers[w].cbFiber == None)
  }

  /** All work is done: nothing queued, nobody counted. */
  predicate Stopping(s: State)
  {
    s.autoStop && s.stopping && s.queue == [] && s.active == 0
  }
}
