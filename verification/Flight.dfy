/** The callbacks a scheduler carries, queued or in the hands of a worker: how often each occurs. */
module Flight {
  import opened Tasks
  import opened Sched
  import opened SchedCounts

  function Is(t: Task, cb: Callback): nat
  {
    if t == CallTask(cb) then 1 else 0
  }

  function Calls(queue: seq<Entry>, cb: Callback): nat
  {
    if queue == [] then 0 else Is(queue[0].task, cb) + Calls(queue[1..], cb)
  }

  function Holds(x: Worker, cb: Callback): nat
  {
    match x.pc
    case Picked(e) => Is(e.task, cb)
    case Running(_, _, e) => Is(e.task, cb)
    case _ => 0
  }

  function Held(ws: seq<Worker>, cb: Callback): nat
  {
    if ws == [] then 0 else Holds(ws[0], cb) + Held(ws[1..], cb)
  }

  function Flying(s: State, cb: Callback): nat
  {
    Calls(s.queue, cb) + Held(s.workers, cb)
  }

  lemma {:induction false} CallsConcat(a: seq<Entry>, b: seq<Entry>, cb: Callback)
    ensures Calls(a + b, cb) == Calls(a, cb) + Calls(b, cb)
  {
    if a == [] {
      assert a + b == b;
    } else {
      assert (a + b)[1..] == a[1..] + b;
      CallsConcat(a[1..], b, cb);
    }
  }

  lemma CallsAppend(queue: seq<Entry>, e: Entry, cb: Callback)
    ensures Calls(queue + [e], cb) == Calls(queue, cb) + Is(e.task, cb)
  {
    CallsConcat(queue, [e], cb);
    assert Calls([e], cb) == Is(e.task, cb) + Calls([], cb);
  }

  lemma CallsRemove(queue: seq<Entry>, k: nat, cb: Callback)
    requires k < |queue|
    ensures Calls(queue, cb) == Calls(Remove(queue, k), cb) + Is(queue[k].task, cb)
  {
    assert queue == queue[..k] + [queue[k]] + queue[k + 1..];
    CallsConcat(queue[..k] + [queue[k]], queue[k + 1..], cb);
    CallsAppend(queue[..k], queue[k], cb);
    CallsConcat(queue[..k], queue[k + 1..], cb);
  }

  lemma {:induction false} HeldUpdate(ws: seq<Worker>, w: nat, x: Worker, cb: Callback)
    requires w < |ws|
    ensures Held(ws[w := x], cb) == Held(ws, cb) + Holds(x, cb) - Holds(ws[w], cb)
  {
    if w == 0 {
      assert ws[w := x][1..] == ws[1..];
    } else {
      assert ws[w := x][1..] == ws[1..][w - 1 := x];
      HeldUpdate(ws[1..], w - 1, x, cb);
    }
  }

  lemma {:induction false} HeldHas(ws: seq<Worker>, w: nat, cb: Callback)
    requires w < |ws|
    ensures Holds(ws[w], cb) <= Held(ws, cb)
  {
    if w > 0 {
      HeldHas(ws[1..], w - 1, cb);
    }
  }

  lemma {:induction false} NothingHeld(ws: seq<Worker>, cb: Callback)
    requires forall w :: 0 <= w < |ws| ==> !IsActive(ws[w].pc)
    ensures Held(ws, cb) == 0
  {
    if ws != [] {
      NothingHeld(ws[1..], cb);
    }
  }

  lemma FlyingPick(s: State, w: nat, cb: Callback)
    requires Enabled(s, Pick(w))
    ensures Flying(Next(s, Pick(w)), cb) == Flying(s, cb)
  {
    var k := FirstEligible(s.queue, s.fibers, s.workers[w].tid, 0);
    if k < |s.queue| {
      CallsRemove(s.queue, k, cb);
      HeldUpdate(s.workers, w, s.workers[w].(pc := Picked(s.queue[k])), cb);
    }
  }

  lemma FlyingStart(s: State, w: nat, spare: nat, cb: Callback)
    requires Enabled(s, Start(w, spare))
    ensures Flying(Next(s, Start(w, spare)), cb) == Flying(s, cb)
  {
    hide Calls, Held;
    HeldUpdate(s.workers, w, Next(s, Start(w, spare)).workers[w], cb);
  }

  lemma FlyingSettle(s: State, w: nat, cb: Callback)
    requires Enabled(s, Settle(w))
    ensures Flying(SettleStep(s, w), cb) == Flying(s, cb)
  {
    hide Calls, Held;
    SettleMoves(s, w);
    HeldUpdate(s.workers, w, SettleStep(s, w).workers[w], cb);
    CallsAppend(s.queue, Entry(FiberTask(s.workers[w].pc.f), -1), cb);
  }

  /** The steps of a worker between tasks carry the callbacks along. */
  lemma FlyingKept(s: State, a: Action, cb: Callback)
    requires Enabled(s, a)
    requires a.Pick? || a.Start? || a.Decrement? || a.Settle? || a.GoIdle? || a.LeaveIdle? || a.Exit? || a.Stop?
             || a.Spawn?
    ensures Flying(Next(s, a), cb) == Flying(s, cb)
  {
    hide Calls, Held, PickStep, StartStep, SettleStep;
    match a
    case Pick(w) => FlyingPick(s, w, cb);
    case Spawn(f, thread) => CallsAppend(s.queue, Entry(FiberTask(f), thread), cb);
    case Start(w, spare) => FlyingStart(s, w, spare, cb);
    case Decrement(w) => HeldUpdate(s.workers, w, Next(s, a).workers[w], cb);
    case Settle(w) => FlyingSettle(s, w, cb);
    case GoIdle(w) => HeldUpdate(s.workers, w, Next(s, a).workers[w], cb);
    case LeaveIdle(w) => HeldUpdate(s.workers, w, Next(s, a).workers[w], cb);
    case Exit(w) => HeldUpdate(s.workers, w, Next(s, a).workers[w], cb);
    case Stop =>
  }

  /** A fiber that swaps out has done with the callback its worker held. */
  lemma FlyingYield(s: State, w: nat, st: FiberState, cb: Callback)
    requires Enabled(s, YieldWrite(w, st))
    ensures Flying(YieldStep(s, w, st), cb) == Flying(s, cb) - Holds(s.workers[w], cb)
  {
    hide Calls, Held, Queued;
    HeldUpdate(s.workers, w, YieldStep(s, w, st).workers[w], cb);
  }
}
