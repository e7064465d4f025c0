/**
  Who holds a fiber, step by step.  With the yield in pieces, no fiber is held by two workers exactly as long as nobody
  takes one from the queue whose last worker is still on its way back from it.
 */
module SchedApart {
  import opened Options
  import opened Tasks
  import opened Sched
  import opened SchedCounts

  // ----- the invariant

  /** The fiber a worker is concerned with: picked, running, or swapped out and not yet settled. */
  function InHand(x: Worker): Option<nat>
  {
    match x.pc
    case Picked(e) => if e.task.FiberTask? then Some(e.task.fiber) else None
    case Running(f, _, _) => Some(f)
    case Yielded(f, _) => Some(f)
    case Settling(f, _) => Some(f)
    case _ => None
  }

  /** The worker is in a fiber, or on its way back from it. */
  predicate Engaged(pc: Pc)
  {
    pc.Running? || pc.Yielded? || pc.Settling?
  }

  /** A worker's callback fiber is spare while the worker is not concerned with it. */
  predicate Spare(x: Worker)
  {
    x.cbFiber.Some? && !(Engaged(x.pc) && x.pc.own)
  }

  predicate Unfinished(st: FiberState)
  {
    st == INIT || st == HOLD || st == READY
  }

  /** Each worker on its own: what it runs executes, what it picked or left does not, and its spare fiber is new. */
  predicate WorkerOk(s: State, x: Worker)
  {
    && (Engaged(x.pc) ==>
          && x.pc.f in s.fibers && (x.cbFiber == Some(x.pc.f) <==> x.pc.own)
          && (if x.pc.Running? then s.fibers[x.pc.f] == EXEC else InSwap(s.fibers[x.pc.f])))
    && (x.pc.Picked? && x.pc.e.task.FiberTask? ==>
          && x.pc.e.task.fiber in s.fibers && Unfinished(s.fibers[x.pc.e.task.fiber])
          && x.pc.e.task.fiber !in s.armed && x.cbFiber != Some(x.pc.e.task.fiber))
    && (Spare(x) ==> x.cbFiber.value in s.fibers && s.fibers[x.cbFiber.value] == INIT && x.cbFiber.value !in s.armed)
  }

  /** Two workers: nothing in hand or spare in common. */
  predicate Apart(x: Worker, y: Worker)
  {
    && (InHand(x).Some? ==> InHand(x) != InHand(y) && InHand(x) != y.cbFiber)
    && (x.cbFiber.Some? ==> x.cbFiber != y.cbFiber && x.cbFiber != InHand(y))
  }

  predicate Workers(s: State)
  {
    && (forall w :: 0 <= w < |s.workers| ==> WorkerOk(s, s.workers[w]))
    && (forall v, w :: 0 <= v < |s.workers| && 0 <= w < |s.workers| && v != w ==> Apart(s.workers[v], s.workers[w]))
  }

  /** As far as one worker goes, a fiber may be queued: not picked, not spare, and left only to be held. */
  predicate Free(s: State, w: nat, f: nat)
    requires w < |s.workers| && f in s.fibers
  {
    && !PickedBy(s, w, f) && (SwappedOutBy(s, w, f) ==> s.fibers[f] == HOLD)
    && (Spare(s.workers[w]) ==> s.workers[w].cbFiber != Some(f))
  }

  /** A fiber that is or may be queued has no wake-up outstanding and has not ended. */
  predicate Queueable(s: State, f: nat)
  {
    && f in s.fibers && f !in s.armed && (Unfinished(s.fibers[f]) || s.fibers[f] == EXEC)
    && (forall w :: 0 <= w < |s.workers| ==> Free(s, w, f))
  }

  predicate Once(queue: seq<Entry>)
  {
    forall i, j :: 0 <= i < j < |queue| && queue[i].task.FiberTask? ==> queue[i].task != queue[j].task
  }

  ghost predicate QueueOk(s: State)
  {
    (forall f :: Queued(s, f) ==> Queueable(s, f)) && Once(s.queue)
  }

  /** An armed fiber executes or is held, and nothing has woken it since it was armed. */
  predicate ArmedOk(s: State)
  {
    && (forall f :: f in s.armed ==>
          f in s.fibers && (s.fibers[f] == EXEC || s.fibers[f] == HOLD) && f in s.wakes && s.wakes[f] == 0)
    && (forall f :: f in s.wakes ==> s.wakes[f] <= 1)
  }

  ghost predicate ApartInv(s: State)
  {
    Workers(s) && QueueOk(s) && ArmedOk(s)
  }

  /** One wake-up at a time: a fiber with one outstanding or delivered arranges no other and yields only to be held. */
  predicate Disciplined(s: State, a: Action)
    requires Enabled(s, a)
  {
    && (a.Arm? ==> !Queued(s, s.workers[a.w].pc.f))
    && (a.YieldWrite? && a.st != HOLD ==> s.workers[a.w].pc.f !in s.armed && !Queued(s, s.workers[a.w].pc.f))
  }

  /** The step takes from the queue a fiber that another worker has left and not yet settled. */
  ghost predicate TakesTooEarly(s: State, a: Action)
    requires Enabled(s, a)
  {
    a.Pick? &&
    var k := FirstEligible(s.queue, s.fibers, s.workers[a.w].tid, 0);
    k < |s.queue| && s.queue[k].task.FiberTask? && exists v: nat :: SwappedOutBy(s, v, s.queue[k].task.fiber)
  }

  // ----- what one worker's move keeps

  /** No worker but `w` has anything to do with fiber `g`. */
  predicate Only(s: State, w: nat, g: nat)
  {
    forall v :: 0 <= v < |s.workers| && v != w ==>
      InHand(s.workers[v]) != Some(g) && s.workers[v].cbFiber != Some(g)
  }

  /** From `s` to `s'` only worker `w` moves, and only fiber `g` changes. */
  predicate Moves(s: State, s': State, w: nat, g: nat)
  {
    && w < |s.workers| == |s'.workers| && s'.workers == s.workers[w := s'.workers[w]]
    && (forall f :: f in s.fibers && f != g ==> f in s'.fibers && s'.fibers[f] == s.fibers[f])
    && (forall f :: f in s'.armed ==> f in s.armed || f == g)
  }

  lemma WorkersMove(s: State, s': State, w: nat, g: nat)
    requires Workers(s) && Moves(s, s', w, g) && Only(s, w, g) && WorkerOk(s', s'.workers[w])
    requires InHand(s'.workers[w]) == Some(g) || InHand(s'.workers[w]) == None
    requires s'.workers[w].cbFiber in {Some(g), None, s.workers[w].cbFiber}
    ensures Workers(s')
  {
    forall v | 0 <= v < |s'.workers| ensures WorkerOk(s', s'.workers[v]) {
      if v != w {
        assert WorkerOk(s, s.workers[v]);
      }
    }
    forall u, v | 0 <= u < |s'.workers| && 0 <= v < |s'.workers| && u != v
      ensures Apart(s'.workers[u], s'.workers[v])
    {
      assert Apart(s.workers[u], s.workers[v]) && Apart(s.workers[v], s.workers[u]);
    }
  }

  lemma QueueMove(s: State, s': State, w: nat, g: nat)
    requires QueueOk(s) && Moves(s, s', w, g) && s'.queue == s.queue
    requires forall f :: f in s.fibers && f != g && Free(s, w, f) ==> Free(s', w, f)
    requires Queued(s, g) ==> Queueable(s', g)
    ensures QueueOk(s')
  {
    hide Queued;
    forall f | Queued(s', f) ensures Queueable(s', f) {
      SameQueue(s, s', f);
      if f != g {
        FreeMove(s, s', w, g, f);
      }
    }
  }

  lemma FreeMove(s: State, s': State, w: nat, g: nat, f: nat)
    requires Queueable(s, f) && Moves(s, s', w, g) && f != g
    requires Free(s, w, f) ==> Free(s', w, f)
    ensures Queueable(s', f)
  {
    forall v | 0 <= v < |s'.workers| ensures Free(s', v, f) {
      assert Free(s, v, f);
    }
  }

  lemma SameQueue(s: State, s': State, f: nat)
    requires s'.queue == s.queue
    ensures Queued(s', f) <==> Queued(s, f)
  {}

  /** A fiber a worker has in hand, or spare, is its own. */
  lemma InHandOnly(s: State, w: nat, g: nat)
    requires Workers(s) && w < |s.workers|
    requires InHand(s.workers[w]) == Some(g) || s.workers[w].cbFiber == Some(g)
    ensures Only(s, w, g)
  {
    forall v | 0 <= v < |s.workers| && v != w
      ensures InHand(s.workers[v]) != Some(g) && s.workers[v].cbFiber != Some(g)
    {
      assert Apart(s.workers[w], s.workers[v]);
    }
  }

  lemma UnknownOnly(s: State, w: nat, g: nat)
    requires Workers(s) && g !in s.fibers
    ensures Only(s, w, g)
  {
    forall v | 0 <= v < |s.workers| && v != w
      ensures InHand(s.workers[v]) != Some(g) && s.workers[v].cbFiber != Some(g)
    {
      assert WorkerOk(s, s.workers[v]);
    }
  }

  // ----- steps of the queue

  lemma EnqueueKeeps(s: State, e: Entry)
    requires QueueOk(s) && (e.task.FiberTask? ==> Queueable(s, e.task.fiber) && !Queued(s, e.task.fiber))
    ensures QueueOk(Enqueue(s, e))
  {
    var s' := Enqueue(s, e);
    forall f | Queued(s', f) ensures Queueable(s', f) {
      QueuedAppend(s, s', e, f);
      SameFree(s, s', f);
    }
    if e.task.FiberTask? {
      forall i | 0 <= i < |s.queue| ensures s.queue[i].task != e.task {}
    }
  }

  /** Nothing that concerns a fiber's place in the queue changes. */
  lemma SameFree(s: State, s': State, f: nat)
    requires Queueable(s, f) && s'.workers == s.workers && f in s'.fibers && s'.fibers[f] == s.fibers[f]
    requires f in s'.armed ==> f in s.armed
    ensures Queueable(s', f)
  {
    forall w | 0 <= w < |s'.workers| ensures Free(s', w, f) {
      assert Free(s, w, f);
    }
  }

  lemma SameQueueOk(s: State, s': State)
    requires QueueOk(s) && s'.queue == s.queue && s'.workers == s.workers && s'.armed <= s.armed
    requires forall f :: f in s.fibers ==> f in s'.fibers && s'.fibers[f] == s.fibers[f]
    ensures QueueOk(s')
  {
    forall f | Queued(s', f) ensures Queueable(s', f) {
      SameQueue(s, s', f);
      SameFree(s, s', f);
    }
  }

  lemma SameWorkers(s: State, s': State)
    requires Workers(s) && s'.workers == s.workers && s'.armed <= s.armed
    requires forall f :: f in s.fibers ==> f in s'.fibers && s'.fibers[f] == s.fibers[f]
    ensures Workers(s')
  {
    forall w | 0 <= w < |s'.workers| ensures WorkerOk(s', s'.workers[w]) {
      assert WorkerOk(s, s.workers[w]);
    }
  }

  lemma ScheduleKeeps(s: State, cb: Callback, thread: int)
    requires ApartInv(s)
    ensures ApartInv(Next(s, Schedule(cb, thread)))
  {
    EnqueueKeeps(s, Entry(CallTask(cb), thread));
    SameWorkers(s, Next(s, Schedule(cb, thread)));
  }

  lemma SpawnKeeps(s: State, f: nat, thread: int)
    requires ApartInv(s) && f !in s.fibers
    ensures ApartInv(Next(s, Spawn(f, thread)))
  {
    hide Queued;
    var mid := SetFiber(s, f, INIT);
    SameWorkers(s, mid);
    SameQueueOk(s, mid);
    UnknownOnly(s, |s.workers|, f);
    SameQueue(s, mid, f);
    forall w | 0 <= w < |mid.workers| ensures Free(mid, w, f) {
      assert InHand(mid.workers[w]) != Some(f) && mid.workers[w].cbFiber != Some(f);
    }
    assert !Queued(s, f);
    EnqueueKeeps(mid, Entry(FiberTask(f), thread));
    SameWorkers(mid, Next(s, Spawn(f, thread)));
  }

  lemma WakeKeeps(s: State, f: nat)
    requires ApartInv(s) && f in s.armed
    ensures ApartInv(Next(s, Wake(f)))
  {
    hide Queued;
    var s' := Next(s, Wake(f));
    var mid := s.(armed := s.armed - {f}, wakes := s'.wakes);
    SameWorkers(s, mid);
    SameQueueOk(s, mid);
    SameQueue(s, mid, f);
    assert !Queued(s, f);
    forall w | 0 <= w < |mid.workers| ensures Free(mid, w, f) {
      assert WorkerOk(s, s.workers[w]);
    }
    EnqueueKeeps(mid, Entry(FiberTask(f), -1));
    SameWorkers(mid, s');
  }

  lemma DisarmKeeps(s: State, f: nat)
    requires ApartInv(s) && f in s.armed
    ensures ApartInv(Next(s, Disarm(f)))
  {
    SameWorkers(s, Next(s, Disarm(f)));
    SameQueueOk(s, Next(s, Disarm(f)));
  }

  lemma ArmKeeps(s: State, w: nat)
    requires ApartInv(s) && Enabled(s, Arm(w)) && !Queued(s, s.workers[w].pc.f)
    ensures ApartInv(Next(s, Arm(w)))
  {
    hide Queued;
    var s', f := Next(s, Arm(w)), s.workers[w].pc.f;
    assert WorkerOk(s, s.workers[w]);
    InHandOnly(s, w, f);
    assert s'.workers == s.workers[w := s'.workers[w]];
    WorkersMove(s, s', w, f);
    QueueMove(s, s', w, f);
  }

  // ----- taking and starting

  lemma RemoveKeeps(s: State, k: nat)
    requires QueueOk(s) && k < |s.queue|
    ensures QueueOk(s.(queue := Remove(s.queue, k)))
    ensures s.queue[k].task.FiberTask? ==> !Queued(s.(queue := Remove(s.queue, k)), s.queue[k].task.fiber)
  {
    var s' := s.(queue := Remove(s.queue, k));
    forall i | 0 <= i < |s'.queue| ensures s'.queue[i] == s.queue[if i < k then i else i + 1] {}
    forall f | Queued(s', f) ensures Queueable(s', f) {
      var i :| 0 <= i < |s'.queue| && s'.queue[i].task == FiberTask(f);
      assert s.queue[if i < k then i else i + 1].task == FiberTask(f);
      SameFree(s, s', f);
    }
  }

  /** A queued fiber that neither executes nor is being settled is in nobody's hand. */
  lemma PickedFree(s: State, w: nat, g: nat)
    requires Workers(s) && w < |s.workers| && s.workers[w].pc.Scan? && Queueable(s, g) && s.fibers[g] != EXEC
    requires !exists v: nat :: SwappedOutBy(s, v, g)
    ensures Only(s, w, g) && s.workers[w].cbFiber != Some(g)
  {
    forall v | 0 <= v < |s.workers| ensures InHand(s.workers[v]) != Some(g) && s.workers[v].cbFiber != Some(g) {
      assert WorkerOk(s, s.workers[v]) && Free(s, v, g) && !SwappedOutBy(s, v, g);
    }
  }

  lemma PickKeeps(s: State, w: nat)
    requires ApartInv(s) && Enabled(s, Pick(w)) && !TakesTooEarly(s, Pick(w))
    ensures ApartInv(PickStep(s, w))
  {
    hide Queued;
    var s', x := PickStep(s, w), s.workers[w];
    var k := FirstEligible(s.queue, s.fibers, x.tid, 0);
    assert WorkerOk(s, x);
    if k < |s.queue| {
      var mid := s.(queue := Remove(s.queue, k));
      RemoveKeeps(s, k);
      if s.queue[k].task.FiberTask? {
        var g := s.queue[k].task.fiber;
        QueuedAt(s, k);
        PickedFree(s, w, g);
        WorkersMove(s, s', w, g);
        QueueMove(mid, s', w, g);
      } else {
        QuietWorkers(s, s', w);
        QuietQueue(mid, s', w);
      }
    }
  }

  lemma QueuedAt(s: State, k: nat)
    requires k < |s.queue| && s.queue[k].task.FiberTask?
    ensures Queued(s, s.queue[k].task.fiber)
  {}

  /** A worker with no fiber in hand. */
  predicate Quiet(pc: Pc)
  {
    pc.Scan? || pc.InIdle? || pc.Exited? || (pc.Picked? && pc.e.task.CallTask?)
  }

  /** Only what a worker without a fiber does next changes. */
  predicate QuietMove(s: State, s': State, w: nat)
  {
    && w < |s.workers| == |s'.workers| && s'.workers == s.workers[w := s.workers[w].(pc := s'.workers[w].pc)]
    && Quiet(s.workers[w].pc) && Quiet(s'.workers[w].pc) && s'.fibers == s.fibers && s'.armed == s.armed
  }

  lemma QuietWorkers(s: State, s': State, w: nat)
    requires Workers(s) && QuietMove(s, s', w)
    ensures Workers(s')
  {
    forall v | 0 <= v < |s'.workers| ensures WorkerOk(s', s'.workers[v]) {
      assert WorkerOk(s, s.workers[v]);
    }
    forall u, v | 0 <= u < |s'.workers| && 0 <= v < |s'.workers| && u != v
      ensures Apart(s'.workers[u], s'.workers[v])
    {
      assert Apart(s.workers[u], s.workers[v]);
    }
  }

  lemma QuietQueue(s: State, s': State, w: nat)
    requires QueueOk(s) && QuietMove(s, s', w) && s'.queue == s.queue
    ensures QueueOk(s')
  {
    hide Queued;
    forall f | Queued(s', f) ensures Queueable(s', f) {
      SameQueue(s, s', f);
      forall v | 0 <= v < |s'.workers| ensures Free(s', v, f) {
        assert Free(s, v, f);
      }
    }
  }

  /** What a worker is about to swap in is not in the queue. */
  lemma NotQueued(s: State, w: nat, g: nat)
    requires ApartInv(s) && w < |s.workers| && s.workers[w].pc.Picked?
    requires PickedBy(s, w, g) || (Spare(s.workers[w]) && s.workers[w].cbFiber == Some(g)) || g !in s.fibers
    ensures !Queued(s, g)
  {
    hide Queued;
    assert Queued(s, g) ==> Queueable(s, g);
    assert Queueable(s, g) ==> Free(s, w, g);
  }

  /** The fiber a worker is about to swap in. */
  function Incoming(x: Worker, spare: nat): nat
    requires x.pc.Picked?
  {
    match x.pc.e.task
    case FiberTask(f) => f
    case CallTask(_) => if x.cbFiber.Some? then x.cbFiber.value else spare
  }

  /** In a good state starting means running what comes in; nothing ended is ever taken. */
  lemma StartEffect(s: State, w: nat, spare: nat)
    requires ApartInv(s) && Enabled(s, Start(w, spare))
    ensures var x, s' := s.workers[w], StartStep(s, w, spare);
            var g := Incoming(x, spare);
            && s' == s.(fibers := s.fibers[g := EXEC], workers := s.workers[w := s'.workers[w]])
            && s'.workers[w] == Worker(x.tid, Running(g, x.pc.e.task.CallTask?, x.pc.e),
                                       if x.pc.e.task.CallTask? then Some(g) else x.cbFiber)
            && g !in s.armed && (g in s.fibers ==> Unfinished(s.fibers[g]))
              && (x.pc.e.task.FiberTask? ==> g in s.fibers)
            && (x.cbFiber == Some(g) ==> x.pc.e.task.CallTask?)
  {
    assert WorkerOk(s, s.workers[w]);
  }

  lemma StartOnly(s: State, w: nat, spare: nat)
    requires ApartInv(s) && Enabled(s, Start(w, spare))
    ensures var g := Incoming(s.workers[w], spare); Only(s, w, g) && !Queued(s, g)
  {
    hide Queued;
    var g := Incoming(s.workers[w], spare);
    assert WorkerOk(s, s.workers[w]);
    if g in s.fibers {
      InHandOnly(s, w, g);
    } else {
      UnknownOnly(s, w, g);
    }
    NotQueued(s, w, g);
  }

  lemma StartKeeps(s: State, w: nat, spare: nat)
    requires ApartInv(s) && Enabled(s, Start(w, spare))
    ensures ApartInv(StartStep(s, w, spare))
    ensures StartStep(s, w, spare).workers[w].pc.Running?
  {
    hide Queued, StartStep;
    var s', g := StartStep(s, w, spare), Incoming(s.workers[w], spare);
    assert WorkerOk(s, s.workers[w]);
    StartEffect(s, w, spare);
    StartOnly(s, w, spare);
    WorkersMove(s, s', w, g);
    QueueMove(s, s', w, g);
  }

  // ----- a yield in pieces

  lemma YieldWriteKeeps(s: State, w: nat, st: FiberState)
    requires ApartInv(s) && Enabled(s, YieldWrite(w, st)) && Disciplined(s, YieldWrite(w, st))
    ensures ApartInv(Next(s, YieldWrite(w, st)))
  {
    hide Queued;
    var s', f := Next(s, YieldWrite(w, st)), s.workers[w].pc.f;
    assert WorkerOk(s, s.workers[w]);
    InHandOnly(s, w, f);
    WorkersMove(s, s', w, f);
    if Queued(s, f) {
      HeldQueueable(s, s', w, f);
    }
    QueueMove(s, s', w, f);
  }

  /** A queued fiber whose worker leaves it to be held may stay queued. */
  lemma HeldQueueable(s: State, s': State, w: nat, f: nat)
    requires Queueable(s, f) && Moves(s, s', w, f) && Only(s, w, f)
    requires f in s'.fibers && s'.fibers[f] == HOLD && f !in s'.armed
    requires !PickedBy(s', w, f) && !(Spare(s'.workers[w]) && s'.workers[w].cbFiber == Some(f))
    ensures Queueable(s', f)
  {
    forall v | 0 <= v < |s'.workers| ensures Free(s', v, f) {
      assert Free(s, v, f);
      assert v != w ==> s'.workers[v] == s.workers[v] && InHand(s.workers[v]) != Some(f);
    }
  }

  lemma DecrementKeeps(s: State, w: nat)
    requires ApartInv(s) && Enabled(s, Decrement(w))
    ensures ApartInv(Next(s, Decrement(w)))
  {
    hide Queued;
    var s', f := Next(s, Decrement(w)), s.workers[w].pc.f;
    assert WorkerOk(s, s.workers[w]);
    InHandOnly(s, w, f);
    WorkersMove(s, s', w, f);
    if Queued(s, f) {
      assert Free(s, w, f);
      HeldQueueable(s, s', w, f);
    }
    QueueMove(s, s', w, f);
  }

  /** What settling does, by the state it finds. */
  lemma SettleEffect(s: State, w: nat)
    requires Enabled(s, Settle(w)) && InSwap(s.fibers[s.workers[w].pc.f])
    ensures var x, s' := s.workers[w], Next(s, Settle(w));
            var f, own, st := x.pc.f, x.pc.own, s.fibers[x.pc.f];
            var ended := st == TERM || st == EXCEPT;
            && s' == s.(workers := s'.workers, fibers := s'.fibers, queue := s'.queue, log := s'.log)
            && s'.workers == s.workers[w := Worker(x.tid, Scan, if own && !ended then None else x.cbFiber)]
            && s'.fibers == s.fibers[f := if ended && own then INIT else st]
            && s'.queue == (if st == READY then s.queue + [Entry(FiberTask(f), -1)] else s.queue)
            && s'.log == (if st == READY then s.log + [Entry(FiberTask(f), -1)] else s.log)
  {}

  /** Up to putting a ready fiber back, settling lets go of the fiber: as the workers see it. */
  lemma LetGo(s: State, mid: State, w: nat)
    requires ApartInv(s) && Enabled(s, Settle(w))
    requires mid == Next(s, Settle(w)).(queue := s.queue, log := s.log)
    ensures Moves(s, mid, w, s.workers[w].pc.f) && Only(s, w, s.workers[w].pc.f) && Workers(mid) && ArmedOk(mid)
  {
    hide Queued, Next, QueueOk;
    var x, f := s.workers[w], s.workers[w].pc.f;
    assert WorkerOk(s, x);
    SettleEffect(s, w);
    InHandOnly(s, w, f);
    WorkersMove(s, mid, w, f);
  }

  /** And as the queue sees it. */
  lemma LetGoQueue(s: State, mid: State, w: nat)
    requires ApartInv(s) && Enabled(s, Settle(w))
    requires mid == Next(s, Settle(w)).(queue := s.queue, log := s.log)
    requires Moves(s, mid, w, s.workers[w].pc.f) && Only(s, w, s.workers[w].pc.f)
    ensures QueueOk(mid) && (s.fibers[s.workers[w].pc.f] == READY ==>
                               Queueable(mid, s.workers[w].pc.f) && !Queued(mid, s.workers[w].pc.f))
  {
    hide Queued, Next, Moves, Only;
    var x, f := s.workers[w], s.workers[w].pc.f;
    assert WorkerOk(s, x);
    SettleEffect(s, w);
    assert Queued(s, f) ==> Queueable(s, f);
    assert Queueable(s, f) ==> Free(s, w, f);
    if Queued(s, f) {
      HeldQueueable(s, mid, w, f);
    }
    QueueMove(s, mid, w, f);
    SameQueue(s, mid, f);
    if s.fibers[f] == READY {
      ReadyQueueable(s, mid, w, f);
    }
  }

  lemma SettleKeeps(s: State, w: nat)
    requires ApartInv(s) && Enabled(s, Settle(w))
    ensures ApartInv(Next(s, Settle(w)))
  {
    hide Queued, Next, Queueable, Workers, QueueOk, ArmedOk, Moves, Only;
    var s', f := Next(s, Settle(w)), s.workers[w].pc.f;
    var mid := s'.(queue := s.queue, log := s.log);
    SettledSwap(s, w);
    SettleEffect(s, w);
    LetGo(s, mid, w);
    LetGoQueue(s, mid, w);
    if s.fibers[f] == READY {
      RequeueKeeps(mid, s', f);
    } else {
      assert mid == s';
    }
  }

  lemma SettledSwap(s: State, w: nat)
    requires ApartInv(s) && Enabled(s, Settle(w))
    ensures InSwap(s.fibers[s.workers[w].pc.f])
  {
    assert WorkerOk(s, s.workers[w]);
  }

  lemma RequeueKeeps(s: State, s': State, f: nat)
    requires ApartInv(s) && Queueable(s, f) && !Queued(s, f) && s' == Enqueue(s, Entry(FiberTask(f), -1))
    ensures ApartInv(s')
  {
    EnqueueKeeps(s, Entry(FiberTask(f), -1));
    SameWorkers(s, s');
  }

  /** A fiber whose worker has let go of it, and that nobody else has, may be queued. */
  lemma ReadyQueueable(s: State, s': State, w: nat, f: nat)
    requires Moves(s, s', w, f) && Only(s, w, f) && s'.workers[w].pc.Scan? && s'.workers[w].cbFiber != Some(f)
    requires f in s'.fibers && Unfinished(s'.fibers[f]) && f !in s'.armed
    ensures Queueable(s', f)
  {
    forall v | 0 <= v < |s'.workers| ensures Free(s', v, f) {
      assert v != w ==> s'.workers[v] == s.workers[v] && InHand(s.workers[v]) != Some(f);
    }
  }

  // ----- every step

  lemma QuietKeeps(s: State, s': State, w: nat)
    requires ApartInv(s) && QuietMove(s, s', w) && s'.queue == s.queue && s'.wakes == s.wakes
    ensures ApartInv(s')
  {
    QuietWorkers(s, s', w);
    QuietQueue(s, s', w);
  }

  lemma StopKeeps(s: State)
    requires ApartInv(s)
    ensures ApartInv(Next(s, Stop))
  {
    SameWorkers(s, Next(s, Stop));
    SameQueueOk(s, Next(s, Stop));
  }

  lemma StepApart(s: State, a: Action)
    requires ApartInv(s) && Enabled(s, a) && Disciplined(s, a) && !TakesTooEarly(s, a)
    ensures ApartInv(Next(s, a))
  {
    hide ApartInv, Queued, PickStep, StartStep, SettleStep, TakesTooEarly;
    match a
    case Schedule(cb, thread) => ScheduleKeeps(s, cb, thread);
    case Spawn(f, thread) => SpawnKeeps(s, f, thread);
    case Pick(w) => PickKeeps(s, w);
    case Start(w, spare) => StartKeeps(s, w, spare);
    case YieldWrite(w, st) => YieldWriteKeeps(s, w, st);
    case Decrement(w) => DecrementKeeps(s, w);
    case Settle(w) => SettleKeeps(s, w);
    case Arm(w) => ArmKeeps(s, w);
    case Wake(f) => WakeKeeps(s, f);
    case Disarm(f) => DisarmKeeps(s, f);
    case GoIdle(w) => QuietKeeps(s, Next(s, a), w);
    case LeaveIdle(w) => QuietKeeps(s, Next(s, a), w);
    case Exit(w) => QuietKeeps(s, Next(s, a), w);
    case Stop => StopKeeps(s);
  }

  lemma FreshIsApart(s: State)
    requires Fresh(s)
    ensures ApartInv(s)
  {}

  // ----- every run

  /** No fiber is held by two workers. */
  predicate HeldOnce(s: State)
  {
    forall v, w :: 0 <= v < |s.workers| && 0 <= w < |s.workers| && v != w && InHand(s.workers[v]).Some? ==>
      InHand(s.workers[v]) != InHand(s.workers[w])
  }

  /** Every step of the run that happens keeps to one wake-up at a time. */
  ghost predicate RunDisciplined(s: State, acts: seq<Action>)
    decreases |acts|
  {
    acts == [] || ((Enabled(s, acts[0]) ==> Disciplined(s, acts[0])) && RunDisciplined(Step(s, acts[0]), acts[1..]))
  }

  ghost predicate AlwaysHeldOnce(s: State, acts: seq<Action>)
    decreases |acts|
  {
    HeldOnce(s) && (acts == [] || AlwaysHeldOnce(Step(s, acts[0]), acts[1..]))
  }

  ghost predicate NeverTooEarly(s: State, acts: seq<Action>)
    decreases |acts|
  {
    acts == [] || (!(Enabled(s, acts[0]) && TakesTooEarly(s, acts[0])) && NeverTooEarly(Step(s, acts[0]), acts[1..]))
  }

  lemma ApartIsHeldOnce(s: State)
    requires ApartInv(s)
    ensures HeldOnce(s)
  {
    forall v, w | 0 <= v < |s.workers| && 0 <= w < |s.workers| && v != w && InHand(s.workers[v]).Some?
      ensures InHand(s.workers[v]) != InHand(s.workers[w])
    {
      assert Apart(s.workers[v], s.workers[w]);
    }
  }

  lemma TooEarlyIsHeldTwice(s: State, a: Action)
    requires Enabled(s, a) && TakesTooEarly(s, a)
    ensures !HeldOnce(Next(s, a))
  {
    var k, s' := FirstEligible(s.queue, s.fibers, s.workers[a.w].tid, 0), Next(s, a);
    var v: nat :| SwappedOutBy(s, v, s.queue[k].task.fiber);
    assert v != a.w;
    assert InHand(s'.workers[v]) == InHand(s'.workers[a.w]);
  }

  lemma {:induction false} HeldOnceFrom(s: State, acts: seq<Action>)
    requires ApartInv(s) && RunDisciplined(s, acts)
    ensures AlwaysHeldOnce(s, acts) <==> NeverTooEarly(s, acts)
    decreases |acts|
  {
    hide ApartInv, Enabled, Next, TakesTooEarly, HeldOnce, Disciplined;
    ApartIsHeldOnce(s);
    if acts != [] {
      if !Enabled(s, acts[0]) {
        HeldOnceFrom(s, acts[1..]);
      } else if TakesTooEarly(s, acts[0]) {
        TooEarlyIsHeldTwice(s, acts[0]);
      } else {
        StepApart(s, acts[0]);
        HeldOnceFrom(Step(s, acts[0]), acts[1..]);
      }
    }
  }

  /**
    Over every run of every interleaving, yields in pieces: each fiber is held once throughout exactly if nobody ever
    takes one whose last worker has written its state and not yet settled it.
   */
  lemma HeldOnceExactly(s: State, acts: seq<Action>)
    requires Fresh(s) && RunDisciplined(s, acts)
    ensures AlwaysHeldOnce(s, acts) <==> NeverTooEarly(s, acts)
  {
    FreshIsApart(s);
    HeldOnceFrom(s, acts);
  }
}
