/**
  The poller joined to the runtime: one worker polls, its idling is the scheduler's, and the timers are those the hooks
  and the program use.  The runtime's steps are steps of the timer protocol, and no wake-up is lost in a joined run
  exactly if none of them is unsafe.
 */
module RuntimePoller {
  import opened Options
  import opened Tasks
  import Sched
  import SchedCounts
  import Timers
  import Events
  import Poller
  import opened Runtime
  import opened RuntimeInv
  import opened RuntimeRuns
  import opened RuntimeTheorems
  import RuntimeWhole

  // ----- both together

  /** The runtime, the poller's mode, its wake pipe, callers on their way to it, and which worker polls. */
  datatype Joined = Joined(s: State, mode: Poller.Mode, pipe: nat, inFlight: nat, p: nat)

  datatype Act = Rt(a: Action) | Po(b: Poller.Action)

  /** What the timer protocol sees. */
  function View(j: Joined): Poller.World
  {
    Poller.World(j.s.timers, j.s.clock, j.mode, j.pipe, j.inFlight)
  }

  /** The poller's own steps and those of callers that write to the pipe or ask for the next deadline. */
  predicate OfPoller(b: Poller.Action)
  {
    b.ExtraNext? || b.Tickle? || b.Ask? || b.Block? || b.Interrupt? || b.Return? || b.Drain?
  }

  /** Only the polling worker goes idle; it comes back, and expires timers, when it is awake. */
  predicate May(j: Joined, x: Act)
  {
    match x
    case Rt(a) =>
      && Sound(j.s) && Enabled(j.s, a)
      && (a.Expire? ==> j.mode == Poller.Awake)
      && (a.Internal? && a.a.GoIdle? ==> a.a.w == j.p)
      && (a.Internal? && a.a.LeaveIdle? ==> a.a.w == j.p && j.mode == Poller.Awake)
    case Po(b) => OfPoller(b) && Timers.Inv(j.s.timers)
  }

  const NOTHING := Poller.Tick(0)

  function CancelOf(s: State, w: nat): Poller.Action
    requires InIo(s, w, Failing) || InIo(s, w, Parked)
  {
    var id := s.prog[s.sched.workers[w].pc.f].call.timer;
    if id.Some? then Poller.CancelTimer(id.value) else NOTHING
  }

  function TimeoutOf(s: State, w: nat, id: nat): Poller.Action
    requires InIo(s, w, Arming)
  {
    var f := s.sched.workers[w].pc.f;
    var c := s.prog[f].call;
    if c.timeout.Some? then Poller.Add(id, c.timeout.value, IoTimeout(f, c.info, c.fd, c.ev), false) else NOTHING
  }

  /** The step of the timer protocol that a step of the runtime is. */
  function Seen(j: Joined, x: Act): Poller.Action
    requires May(j, x)
  {
    match x
    case Po(b) => b
    case Rt(a) =>
      match a
      case Tick(d) => Poller.Tick(d)
      case SetTimer(w, id) => TimeoutOf(j.s, w, id)
      case BeginSleep(w, ms, id) => Poller.Add(id, ms, WakeFiber(j.s.sched.workers[w].pc.f), false)
      case GiveUp(w) => CancelOf(j.s, w)
      case Wakened(w) => CancelOf(j.s, w)
      case NewTimer(id, ms, n, recurring) => Poller.Add(id, ms, User(n), recurring)
      case CancelTimer(id) => Poller.CancelTimer(id)
      case RefreshTimer(id) => Poller.RefreshTimer(id)
      case ResetTimer(id, ms, fromNow) => Poller.ResetTimer(id, ms, fromNow)
      case Expire(probe) => Poller.Expire(probe)
      case Internal(b) => if b.GoIdle? then Poller.GoIdle else if b.LeaveIdle? then Poller.Leave else NOTHING
      case _ => NOTHING
  }

  function Next(j: Joined, x: Act): Joined
    requires May(j, x)
  {
    hide Runtime.Next, Timers.Inv;
    var w := Poller.Step(View(j), Seen(j, x));
    Joined(if x.Rt? then Runtime.Next(j.s, x.a) else j.s.(timers := w.t), w.mode, w.pipe, w.inFlight, j.p)
  }

  function Step(j: Joined, x: Act): Joined
  {
    if May(j, x) then Next(j, x) else j
  }

  // ----- the runtime's steps are steps of the timer protocol

  /** Steps that have to do with timers or time. */
  predicate Timely(a: Action)
  {
    a.NewTimer? || a.CancelTimer? || a.RefreshTimer? || a.ResetTimer? || a.SetTimer? || a.GiveUp? || a.Wakened?
    || a.BeginSleep? || a.Expire? || a.Tick?
  }

  lemma QuietTimers(s: State, a: Action)
    requires Sound(s) && Enabled(s, a) && !Timely(a)
    ensures Runtime.Next(s, a).timers == s.timers && Runtime.Next(s, a).clock == s.clock
  {
    hide Sched.YieldStep, Deliver, Timers.Inv, Events.AddEvent, Events.CancelEvent, Events.Dispatch, Events.CancelAll,
      Events.DelEvent, Sched.Next, Sched.Enabled;
  }

  lemma QuietSeen(j: Joined, a: Action)
    requires May(j, Rt(a)) && !Timely(a)
    ensures var w := Poller.Step(View(j), Seen(j, Rt(a))); w.t == j.s.timers && w.clock == j.s.clock
  {
    hide Timers.Inv, Sched.Enabled;
  }

  /** What a runtime step does to timers and clock is what the protocol's step does. */
  lemma SameTimers(j: Joined, a: Action)
    requires May(j, Rt(a))
    ensures var t, w := Runtime.Next(j.s, a), Poller.Step(View(j), Seen(j, Rt(a)));
            t.timers == w.t && t.clock == w.clock
  {
    hide Timers.Inv, Timers.AddTimer, Timers.Cancel, Timers.Refresh, Timers.Reset, Timers.ListExpired, Sched.Next,
      Sched.YieldStep, Deliver, Events.Dispatch, Events.CancelAll, Events.DelEvent, Events.AddEvent;
    if !Timely(a) {
      QuietTimers(j.s, a);
      QuietSeen(j, a);
    }
  }

  /** The joined system, seen through its timers, is the timer protocol. */
  lemma Projects(j: Joined, x: Act)
    requires May(j, x)
    ensures View(Next(j, x)) == Poller.Step(View(j), Seen(j, x))
  {
    hide Runtime.Next, Poller.Step, Seen, Timers.Inv, May;
    if x.Rt? {
      SameTimers(j, x.a);
    } else {
      OwnClock(j, x.b);
    }
  }

  lemma OwnClock(j: Joined, b: Poller.Action)
    requires May(j, Po(b))
    ensures Poller.Step(View(j), b).clock == j.s.clock && Seen(j, Po(b)) == b
  {
    hide Timers.Inv;
  }

  // ----- the worker that polls

  /** The poller is not busy exactly while its worker is idle, and no other worker ever is. */
  predicate Linked(j: Joined)
  {
    && j.p < |j.s.sched.workers| && (j.mode != Poller.Busy <==> j.s.sched.workers[j.p].pc.InIdle?)
    && forall v :: 0 <= v < |j.s.sched.workers| && v != j.p ==> !j.s.sched.workers[v].pc.InIdle?
  }

  /** The same workers are idle. */
  predicate SameIdle(s: Sched.State, t: Sched.State)
  {
    |t.workers| == |s.workers| &&
    forall v :: 0 <= v < |s.workers| ==> (t.workers[v].pc.InIdle? <==> s.workers[v].pc.InIdle?)
  }

  lemma IdleStays(s: Sched.State, a: Sched.Action)
    requires Sched.Enabled(s, a) && !a.GoIdle? && !a.LeaveIdle?
    ensures SameIdle(s, Sched.Next(s, a))
  {
    hide Sched.PickStep, Sched.StartStep, Sched.SettleStep, Sched.Queued;
    SchedCounts.StepWorkers(s, a);
    if a.Pick? {
      SchedCounts.PickMoves(s, a.w);
    } else if a.Start? {
      SchedCounts.StartMoves(s, a.w, a.spare);
    } else if a.Settle? {
      SchedCounts.SettleMoves(s, a.w);
    }
  }

  lemma RuntimeIdle(s: State, a: Action)
    requires Sound(s) && Enabled(s, a) && !(a.Internal? && (a.a.GoIdle? || a.a.LeaveIdle?))
    ensures SameIdle(s.sched, Runtime.Next(s, a).sched)
  {
    hide Runtime.Next, Sched.Next, Timers.Inv;
    if a.Internal? {
      InternalNext(s, a.a);
      IdleStays(s.sched, a.a);
    } else if RuntimeWhole.Leaver(a).Some? {
      var t, st := RuntimeWhole.SwapSeen(s, a);
      IdleStays(t, Sched.YieldWrite(a.w, st));
    } else {
      RuntimeWhole.WorkersStay(s, a);
    }
  }

  lemma InternalNext(s: State, a: Sched.Action)
    requires Sound(s) && Enabled(s, Internal(a))
    ensures Runtime.Next(s, Internal(a)) == s.(sched := Sched.Next(s.sched, a))
  {}

  /** Steps of the protocol other than going idle and leaving keep the poller busy or not. */
  lemma ModeStays(w: Poller.World, b: Poller.Action)
    requires Timers.Inv(w.t) && !b.GoIdle? && !b.Leave?
    ensures Poller.Step(w, b).mode == Poller.Busy <==> w.mode == Poller.Busy
  {
    hide Timers.Inv, Timers.AddTimer, Timers.Cancel, Timers.Refresh, Timers.Reset, Timers.ListExpired;
  }

  lemma LinkedKept(j: Joined, x: Act)
    requires Linked(j)
    ensures Linked(Step(j, x))
  {
    hide Runtime.Next, Poller.Step, Timers.Inv, Sched.Next;
    if May(j, x) {
      if x.Po? {
        ModeStays(View(j), x.b);
      } else if x.a.Internal? && x.a.a.GoIdle? {
        GoesIdle(j, x);
      } else if x.a.Internal? && x.a.a.LeaveIdle? {
        LeavesIdle(j, x);
      } else {
        RuntimeIdle(j.s, x.a);
        NoIdling(j, x.a);
        ModeStays(View(j), Seen(j, x));
      }
    }
  }

  lemma NoIdling(j: Joined, a: Action)
    requires May(j, Rt(a)) && !(a.Internal? && (a.a.GoIdle? || a.a.LeaveIdle?))
    ensures !Seen(j, Rt(a)).GoIdle? && !Seen(j, Rt(a)).Leave?
  {
    hide Timers.Inv;
  }

  lemma GoesIdle(j: Joined, x: Act)
    requires Linked(j) && May(j, x) && x.Rt? && x.a.Internal? && x.a.a.GoIdle?
    ensures Linked(Next(j, x))
  {
    hide Timers.Inv;
    InternalNext(j.s, x.a.a);
  }

  lemma LeavesIdle(j: Joined, x: Act)
    requires Linked(j) && May(j, x) && x.Rt? && x.a.Internal? && x.a.a.LeaveIdle?
    ensures Linked(Next(j, x))
  {
    hide Timers.Inv;
    InternalNext(j.s, x.a.a);
  }

  lemma {:induction false} IdleCount(ws: seq<Sched.Worker>, p: nat)
    requires p < |ws| && forall v :: 0 <= v < |ws| && v != p ==> !ws[v].pc.InIdle?
    ensures SchedCounts.Idle(ws) == if ws[p].pc.InIdle? then 1 else 0
  {
    if p > 0 {
      IdleCount(ws[1..], p - 1);
    } else {
      NoneIdle(ws[1..]);
    }
  }

  lemma {:induction false} NoneIdle(ws: seq<Sched.Worker>)
    requires forall v :: 0 <= v < |ws| ==> !ws[v].pc.InIdle?
    ensures SchedCounts.Idle(ws) == 0
  {
    if ws != [] {
      NoneIdle(ws[1..]);
    }
  }

  /** A caller that looks for idle threads before it writes to the pipe finds one exactly if the poller is not busy. */
  lemma TickleSeesPoller(j: Joined)
    requires Linked(j) && Inv(j.s)
    ensures j.s.sched.idle > 0 <==> j.mode != Poller.Busy
  {
    IdleCount(j.s.sched.workers, j.p);
  }

  // ----- every joined run

  function Run(j: Joined, xs: seq<Act>): Joined
    decreases |xs|
  {
    if xs == [] then j else Run(Step(j, xs[0]), xs[1..])
  }

  /** No wake-up is lost at any point of the run. */
  ghost predicate NeverLost(j: Joined, xs: seq<Act>)
    decreases |xs|
  {
    && Timers.Inv(j.s.timers) && Poller.NoLostWake(View(j))
    && (xs == [] || NeverLost(Step(j, xs[0]), xs[1..]))
  }

  /** Every step is safe for the poller. */
  ghost predicate AllSafe(j: Joined, xs: seq<Act>)
    decreases |xs|
  {
    xs == [] ||
    (&& Timers.Inv(j.s.timers) && (May(j, xs[0]) ==> Poller.Safe(View(j), Seen(j, xs[0])))
     && AllSafe(Step(j, xs[0]), xs[1..]))
  }

  /** A new runtime with a busy poller. */
  ghost predicate JoinedStart(j: Joined)
  {
    Start(j.s) && j.mode == Poller.Busy && j.pipe == 0 && j.inFlight == 0 && j.p < |j.s.sched.workers|
  }

  lemma JoinedStep(j: Joined, x: Act)
    requires Poller.FlagOk(View(j)) && Poller.NoLostWake(View(j))
    ensures Poller.FlagOk(View(Step(j, x)))
    ensures Poller.NoLostWake(View(Step(j, x))) <==> (May(j, x) ==> Poller.Safe(View(j), Seen(j, x)))
  {
    hide Runtime.Next, Poller.Step, Poller.Safe, Poller.NoLostWake, Seen, Timers.InvBut, May;
    if May(j, x) {
      Projects(j, x);
      Poller.StepExact(View(j), Seen(j, x));
    }
  }

  lemma {:induction false} LostExactly(j: Joined, xs: seq<Act>)
    requires Poller.FlagOk(View(j)) && Poller.NoLostWake(View(j))
    ensures NeverLost(j, xs) <==> AllSafe(j, xs)
    decreases |xs|
  {
    hide Step, Poller.NoLostWake, Poller.Safe, Timers.InvBut, May, Seen;
    if xs != [] {
      JoinedStep(j, xs[0]);
      Poller.InOrderIsKnown(Step(j, xs[0]).s.timers);
      if Poller.NoLostWake(View(Step(j, xs[0]))) {
        LostExactly(Step(j, xs[0]), xs[1..]);
      }
    }
  }

  /**
    In every run of the runtime with its poller, whatever workers, hooks and the program do, the poller never waits past
    a timer with nothing on its way exactly if every step is safe.
   */
  lemma JoinedLosesNothing(j: Joined, xs: seq<Act>)
    requires JoinedStart(j)
    ensures NeverLost(j, xs) <==> AllSafe(j, xs)
  {
    hide NeverLost, AllSafe;
    LostExactly(j, xs);
  }

  // ----- what it means for those who wait

  /** The timers of waiting fibers are pending ones. */
  lemma Pending(s: State, id: nat)
    requires Timers.Inv(s.timers) && id in s.timers.all && s.timers.all[id].cb.Some?
    ensures id in s.timers.order
  {}

  /**
    While the poller waits and nothing is on its way to it, no sleeping fiber and no call with a timeout has a deadline
    before the end of the wait.
   */
  lemma NobodySleptThrough(j: Joined, f: nat)
    requires Inv(j.s) && Poller.NoLostWake(View(j)) && Poller.Asleep(View(j)) && !Poller.Called(View(j))
    requires f in j.s.prog
    ensures var p := j.s.prog[f];
            var id := if p.Io? then p.call.timer else Some(p.timer);
            id.Some? && id.value in j.s.timers.all && j.s.timers.all[id.value].cb.Some? ==>
              j.mode.until.Some? && j.s.timers.all[id.value].next >= j.mode.until.value
  {
    hide InvBut, Timers.Inv;
    TimerFacts(j.s);
    var p := j.s.prog[f];
    var id := if p.Io? then p.call.timer else Some(p.timer);
    if id.Some? && id.value in j.s.timers.all && j.s.timers.all[id.value].cb.Some? {
      Pending(j.s, id.value);
      var i :| 0 <= i < |j.s.timers.order| && j.s.timers.order[i] == id.value;
    }
  }

  // ----- the runtime's own results hold in joined runs

  /** The poller's and the callers' steps change no more of the runtime than the wake flag. */
  lemma OwnSteps(j: Joined, b: Poller.Action)
    requires May(j, Po(b))
    ensures var t := Next(j, Po(b)); t.s == j.s.(timers := j.s.timers.(tickled := t.s.timers.tickled))
  {
    hide Timers.Inv;
  }

  lemma FlagKeeps(s: State, b: bool)
    requires Inv(s)
    ensures Inv(s.(timers := s.timers.(tickled := b)))
  {
    hide InvBut, Timers.Inv;
    TimerFacts(s);
    SameOrder(s.timers, b);
    Unflagged(s, s.timers.(tickled := b));
  }

  lemma SameOrder(t: Timers.State, b: bool)
    requires Timers.Inv(t)
    ensures Timers.Inv(t.(tickled := b))
  {}

  lemma Unflagged(s: State, t: Timers.State)
    requires Inv(s) && t == s.timers.(tickled := t.tickled) && Timers.Inv(t) && t.previous <= s.clock
    ensures Inv(s.(timers := t))
  {
    TimersMove(s, t);
  }

  /** Every step of the joined system keeps the runtime's invariant, if the runtime's steps are careful. */
  lemma JoinedKeeps(j: Joined, x: Act)
    requires Inv(j.s) && (x.Rt? && Enabled(j.s, x.a) ==> Careful(j.s, x.a))
    ensures Inv(Step(j, x).s)
  {
    hide InvBut, Runtime.Next, Poller.Step, Careful, Enabled, Timers.Inv;
    if May(j, x) {
      if x.Rt? {
        CarefulKeeps(j.s, x.a);
      } else {
        OwnSteps(j, x.b);
        FlagKeeps(j.s, Next(j, x).s.timers.tickled);
      }
    }
  }

  ghost predicate AllCarefulJoined(j: Joined, xs: seq<Act>)
    decreases |xs|
  {
    xs == [] ||
    ((xs[0].Rt? && Enabled(j.s, xs[0].a) ==> Careful(j.s, xs[0].a)) && AllCarefulJoined(Step(j, xs[0]), xs[1..]))
  }

  lemma {:induction false} JoinedRun(j: Joined, xs: seq<Act>)
    requires Inv(j.s) && Linked(j) && AllCarefulJoined(j, xs) && NeverLost(j, xs)
    ensures var t := Run(j, xs); Inv(t.s) && Linked(t) && Timers.Inv(t.s.timers) && Poller.NoLostWake(View(t))
    decreases |xs|
  {
    hide InvBut, Step, Linked, Poller.NoLostWake, Enabled, Careful, Timers.InvBut;
    if xs != [] {
      JoinedKeeps(j, xs[0]);
      LinkedKept(j, xs[0]);
      JoinedRun(Step(j, xs[0]), xs[1..]);
    }
  }

  /**
    In every joined run whose steps are careful and safe, while the poller waits with nothing on its way to it, no
    waiting fiber's timer is due before the wait ends.
   */
  lemma NeverSleptThrough(j: Joined, xs: seq<Act>, f: nat)
    requires JoinedStart(j) && AllCarefulJoined(j, xs) && AllSafe(j, xs)
    ensures var t := Run(j, xs);
            Poller.Asleep(View(t)) && !Poller.Called(View(t)) && f in t.s.prog ==>
              var p := t.s.prog[f];
              var id := if p.Io? then p.call.timer else Some(p.timer);
              id.Some? && id.value in t.s.timers.all && t.s.timers.all[id.value].cb.Some? ==>
                t.mode.until.Some? && t.s.timers.all[id.value].next >= t.mode.until.value
  {
    hide InvBut, Run, AllSafe, NeverLost, AllCarefulJoined, Poller.NoLostWake;
    StartIsGood(j.s);
    JoinedLosesNothing(j, xs);
    JoinedRun(j, xs);
    var t := Run(j, xs);
    if Poller.Asleep(View(t)) && !Poller.Called(View(t)) && f in t.s.prog {
      NobodySleptThrough(t, f);
    }
  }
}
