/** The scheduler's own code: the shared list, the scan for a task, and what a worker does around a swap. */
module Schedulers {
  import opened Options
  import opened Tasks
  import opened Sched
  import opened SchedCounts

  /** What a batch of non-empty arguments adds to the list. */
  function Entries(tasks: seq<Option<Task>>): (r: seq<Entry>)
    ensures |r| <= |tasks|
    ensures forall e :: e in r ==> e.thread == -1 && Some(e.task) in tasks
  {
    if tasks == [] then [] else
      (if tasks[0].Some? then [Entry(tasks[0].value, -1)] else []) + Entries(tasks[1..])
  }

  lemma {:induction false} EntriesAppend(tasks: seq<Option<Task>>, t: Option<Task>)
    ensures Entries(tasks + [t]) == Entries(tasks) + (if t.Some? then [Entry(t.value, -1)] else [])
  {
    if tasks == [] {
      assert tasks + [t] == [t] && [t][1..] == [];
    } else {
      assert (tasks + [t])[1..] == tasks[1..] + [t];
      EntriesAppend(tasks[1..], t);
    }
  }

  lemma Keeps(s: State, a: Action)
    ensures FineInv(s) ==> FineInv(Step(s, a))
  {
    hide FineInv, Step;
    if FineInv(s) {
      StepKeeps(s, a);
    }
  }

  lemma AtRest(s: State)
    requires FineInv(s) && Stopping(s)
    ensures forall w :: 0 <= w < |s.workers| ==> !IsActive(s.workers[w].pc)
    ensures forall f :: f in s.fibers ==>
              && s.fibers[f] != EXEC && (s.fibers[f] == READY ==> exists w: nat :: SettledBy(s, w, f))
              && (s.fibers[f] == INIT ==> exists w: nat :: SpareOf(s, w, f))
  {
    NoneActive(s.workers);
    forall f | f in s.fibers
      ensures && s.fibers[f] != EXEC && (s.fibers[f] == READY ==> exists w: nat :: SettledBy(s, w, f))
              && (s.fibers[f] == INIT ==> exists w: nat :: SpareOf(s, w, f))
    {
      StopIsSound(s, f);
    }
  }

  lemma FoundFirst(queue: seq<Entry>, fibers: map<nat, FiberState>, tid: int, i: nat)
    requires i <= |queue| && (forall k :: 0 <= k < i ==> !Eligible(queue[k], fibers, tid))
    requires i < |queue| ==> Eligible(queue[i], fibers, tid)
    ensures FirstEligible(queue, fibers, tid, 0) == i
    ensures i == |queue| ==> forall e :: e in queue ==> !Eligible(e, fibers, tid)
  {}

  /** Counting down and settling together, by the state the worker finds. */
  lemma BackEffect(s: State, w: nat)
    requires w < |s.workers| && s.workers[w].pc.Yielded? && s.workers[w].pc.f in s.fibers
    ensures var x, s' := s.workers[w], Step(Step(s, Decrement(w)), Settle(w));
            var f, own, st := x.pc.f, x.pc.own, s.fibers[x.pc.f];
            var ended := st == TERM || st == EXCEPT;
            && s' == s.(workers := s'.workers, fibers := s'.fibers, queue := s'.queue, log := s'.log,
                        active := s.active - 1)
            && s'.workers == s.workers[w := Worker(x.tid, Scan, if own && !ended then None else x.cbFiber)]
            && s'.fibers == (if st == READY || (ended && !own) then s.fibers
                             else s.fibers[f := if ended then INIT else HOLD])
            && s'.queue == (if st == READY then s.queue + [Entry(FiberTask(f), -1)] else s.queue)
            && s'.log == (if st == READY then s.log + [Entry(FiberTask(f), -1)] else s.log)
  {
    var x := s.workers[w];
    assert s.workers[w := x.(pc := Settling(x.pc.f, x.pc.own))][w := x.(pc := Scan)] == s.workers[w := x.(pc := Scan)];
  }

  class Scheduler {
    var queue: seq<Entry>
    var fibers: map<nat, FiberState>
    var workers: seq<Worker>
    var active: int
    var idle: int
    var autoStop: bool
    var stopping: bool
    ghost var armed: set<nat>
    ghost var dropped: set<nat>
    ghost var wakes: map<nat, nat>
    ghost var log: seq<Entry>
    ghost var taken: seq<Entry>

    ghost function View(): State
      reads this
    {
      State(queue, fibers, workers, active, idle, autoStop, stopping, armed, dropped, wakes, log, taken)
    }

    constructor (tids: seq<int>)
      ensures Fresh(View()) && |workers| == |tids| && !autoStop && stopping
      ensures forall w :: 0 <= w < |tids| ==> workers[w].tid == tids[w]
    {
      queue, fibers, active, idle, autoStop, stopping := [], map[], 0, 0, false, true;
      workers := seq(|tids|, i requires 0 <= i < |tids| => Worker(tids[i], Scan, None));
      armed, dropped, wakes, log, taken := {}, {}, map[], [], [];
    }

    /** Appends a task unless it is empty; the caller is told whether the list was empty before. */
    method ScheduleNoLock(task: Option<Task>, thread: int) returns (needTickle: bool)
      modifies this`queue, this`log
      ensures needTickle == (old(queue) == [])
      ensures View() == if task.Some? then Enqueue(old(View()), Entry(task.value, thread)) else old(View())
    {
      needTickle := |queue| == 0;
      if task.Some? {
        queue := queue + [Entry(task.value, thread)];
        log := log + [Entry(task.value, thread)];
      }
    }

    /** Moves every argument into the list, in order, leaving the arguments empty. */
    method ScheduleAll(tasks: array<Option<Task>>) returns (needTickle: bool)
      modifies this`queue, this`log, tasks
      ensures forall i :: 0 <= i < tasks.Length ==> tasks[i] == None
      ensures queue == old(queue) + Entries(old(tasks[..])) && log == old(log) + Entries(old(tasks[..]))
      ensures needTickle == (old(queue) == [] && tasks.Length > 0)
    {
      needTickle := false;
      ghost var given := tasks[..];
      var i := 0;
      while i < tasks.Length
        invariant 0 <= i <= tasks.Length
        invariant forall k :: 0 <= k < i ==> tasks[k] == None
        invariant forall k :: i <= k < tasks.Length ==> tasks[k] == given[k]
        invariant queue == old(queue) + Entries(given[..i]) && log == old(log) + Entries(given[..i])
        invariant needTickle == (old(queue) == [] && i > 0)
      {
        assert given[..i + 1] == given[..i] + [given[i]];
        EntriesAppend(given[..i], given[i]);
        var task := tasks[i];
        tasks[i] := None;
        var found := ScheduleNoLock(task, -1);
        needTickle := found || needTickle;
        i := i + 1;
      }
      assert given[..i] == given;
    }

    /**
      A worker's scan: take the first task it may run; wake another only if it found work for others and none for
      itself.
     */
    method PickTask(w: nat) returns (tickleMe: bool)
      requires w < |workers| && workers[w].pc.Scan?
      modifies this`queue, this`active, this`workers, this`taken
      ensures View() == Step(old(View()), Pick(w))
      ensures tickleMe <==>
          workers[w].pc.Scan? && exists e :: e in queue && e.thread != -1 && e.thread != workers[w].tid
    {
      tickleMe := false;
      var tid := workers[w].tid;
      var i := 0;
      while i < |queue| && !(
          && (queue[i].thread == -1 || queue[i].thread == tid)
          && !(queue[i].task.FiberTask? && queue[i].task.fiber in fibers && fibers[queue[i].task.fiber] == EXEC))
        invariant 0 <= i <= |queue|
        invariant forall k :: 0 <= k < i ==> !Eligible(queue[k], fibers, tid)
        invariant tickleMe <==> exists k :: 0 <= k < i && queue[k].thread != -1 && queue[k].thread != tid
      {
        if queue[i].thread != -1 && queue[i].thread != tid {
          tickleMe := true;
        }
        i := i + 1;
      }
      FoundFirst(queue, fibers, tid, i);
      hide FirstEligible, Eligible;
      if i < |queue| {
        var e := queue[i];
        tickleMe := false;
        queue := queue[..i] + queue[i + 1..];
        active := active + 1;
        workers := workers[w := workers[w].(pc := Picked(e))];
        taken := taken + [e];
      }
    }

    /** Up to the swap: drop a fiber that has ended, run a live one, or bind a callback to the worker's own fiber. */
    method SwapIn(w: nat, spare: nat)
      requires Enabled(View(), Start(w, spare))
      modifies this`fibers, this`active, this`workers
      ensures View() == Step(old(View()), Start(w, spare))
    {
      var e := workers[w].pc.e;
      if e.task.FiberTask? {
        var f := e.task.fiber;
        if fibers[f] != TERM && fibers[f] != EXCEPT {
          fibers := fibers[f := EXEC];
          workers := workers[w := workers[w].(pc := Running(f, false, e))];
        } else {
          active := active - 1;
          workers := workers[w := workers[w].(pc := Scan)];
        }
      } else {
        var f := if workers[w].cbFiber.Some? then workers[w].cbFiber.value else spare;
        fibers := fibers[f := EXEC];
        workers := workers[w := Worker(workers[w].tid, Running(f, true, e), Some(f))];
      }
    }

    /** In the fiber: write the state and swap out. */
    method Yield(w: nat, st: FiberState)
      requires Enabled(View(), YieldWrite(w, st))
      modifies this`fibers, this`workers, this`dropped
      ensures View() == Step(old(View()), YieldWrite(w, st))
      ensures FineInv(old(View())) ==> FineInv(View())
    {
      ghost var before := View();
      var f, own := workers[w].pc.f, workers[w].pc.own;
      if st == HOLD && f !in armed && !Queued(View(), f) {
        dropped := dropped + {f};
      }
      fibers := fibers[f := st];
      workers := workers[w := workers[w].(pc := Yielded(f, own))];
      Keeps(before, YieldWrite(w, st));
    }

    /** Back in the worker: count down, then requeue, recycle or mark as parked. */
    method SwapBack(w: nat) returns (needTickle: bool)
      requires w < |workers| && workers[w].pc.Yielded? && workers[w].pc.f in fibers
      modifies this`queue, this`fibers, this`active, this`workers, this`log
      ensures View() == Step(Step(old(View()), Decrement(w)), Settle(w))
      ensures needTickle <==> old(fibers[workers[w].pc.f]) == READY && old(queue) == []
    {
      hide Step;
      BackEffect(View(), w);
      var f, own := workers[w].pc.f, workers[w].pc.own;
      needTickle := false;
      active := active - 1;
      workers := workers[w := workers[w].(pc := Scan)];
      if fibers[f] == READY {
        needTickle := ScheduleNoLock(Some(FiberTask(f)), -1);
        if own {
          workers := workers[w := workers[w].(cbFiber := None)];
        }
      } else if fibers[f] == TERM || fibers[f] == EXCEPT {
        if own {
          fibers := fibers[f := INIT];
        }
      } else {
        fibers := fibers[f := HOLD];
        if own {
          workers := workers[w := workers[w].(cbFiber := None)];
        }
      }
    }

    /**
      Whether all work is done.  In every state a run can reach, yes means that no worker is at work, and that a
      fiber is parked, ended, a worker's spare, or a ready one its own worker is about to requeue.
     */
    method IsStopping() returns (r: bool)
      ensures r == Stopping(View())
      ensures r && FineInv(View()) ==>
                && (forall w :: 0 <= w < |workers| ==> !IsActive(workers[w].pc))
                && (forall f :: f in fibers ==>
                      && fibers[f] != EXEC && (fibers[f] == READY ==> exists w: nat :: SettledBy(View(), w, f))
                      && (fibers[f] == INIT ==> exists w: nat :: SpareOf(View(), w, f)))
    {
      hide FineInv;
      r := autoStop && stopping && |queue| == 0 && active == 0;
      if r && FineInv(View()) {
        AtRest(View());
      }
    }

    method RequestStop()
      modifies this`autoStop, this`stopping
      ensures View() == Step(old(View()), Stop)
      ensures FineInv(old(View())) ==> FineInv(View())
    {
      ghost var before := View();
      autoStop := true;
      stopping := true;
      Keeps(before, Stop);
    }
  }
}
