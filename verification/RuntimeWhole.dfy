/** Runs in which every worker settles the fiber it left before anybody does anything else: they are careful. */
module RuntimeWhole {
  import opened Options
  import Sched
  import SchedApart
  import opened SchedSingle
  import Timers
  import Events
  import opened Runtime
  import opened RuntimeInv
  import opened RuntimeTheorems

  /** The worker whose fiber swaps out in this step. */
  function Leaver(a: Action): Option<nat>
  {
    if a.Yield? || a.Park? || a.RunTimer? then Some(a.w) else None
  }

  /** Every swap is followed at once by its worker's write-back, and nobody resizes late. */
  predicate WholeRun(acts: seq<Action>)
    decreases |acts|
  {
    acts == [] ||
    match Leaver(acts[0])
    case Some(w) =>
      |acts| >= 3 && acts[1] == Internal(Sched.Decrement(w)) && acts[2] == Internal(Sched.Settle(w))
      && WholeRun(acts[3..])
    case None =>
      !acts[0].LateResize? && !(acts[0].Internal? && (acts[0].a.Decrement? || acts[0].a.Settle?)) && WholeRun(acts[1..])
  }

  lemma {:induction false} WholeConcat(a: seq<Action>, b: seq<Action>)
    requires WholeRun(a) && WholeRun(b)
    ensures WholeRun(a + b)
    decreases |a|
  {
    if a == [] {
      assert a + b == b;
    } else if Leaver(a[0]).Some? {
      assert (a + b)[3..] == a[3..] + b && (a + b)[..3] == a[..3];
      assert (a + b)[0] == a[0] && (a + b)[1] == a[1] && (a + b)[2] == a[2];
      WholeConcat(a[3..], b);
    } else {
      assert (a + b)[1..] == a[1..] + b && (a + b)[0] == a[0];
      WholeConcat(a[1..], b);
    }
  }

  lemma WorkersStay(s: State, a: Action)
    requires Sound(s) && Enabled(s, a) && Leaver(a).None? && !a.Internal?
    ensures Next(s, a).sched.workers == s.sched.workers
  {
    hide Deliver, Timers.Inv, Timers.AddTimer, Timers.Cancel, Timers.Refresh, Timers.Reset, Timers.ListExpired,
      Events.AddEvent, Events.CancelEvent, Events.Dispatch, Events.CancelAll, Events.DelEvent, Sched.Next,
      Sched.Enabled;
    if a.Ready? {
      DeliverKeepsWorkers(s.sched, Events.Dispatch(s.io, a.fd, a.ready, a.ok).tasks);
    } else if a.CloseFd? {
      DeliverKeepsWorkers(s.sched, Events.CancelAll(s.io, a.fd, a.ok).2);
    } else if a.CancelEv? {
      DeliverKeepsWorkers(s.sched, Events.CancelEvent(s.io, a.fd, a.e, a.ok).2);
    }
  }

  /** The swap as the scheduler sees it: what a callback did before is none of its business. */
  lemma SwapSeen(s: State, a: Action) returns (t: Sched.State, st: Sched.FiberState)
    requires Sound(s) && Enabled(s, a) && Leaver(a).Some?
    ensures t.workers == s.sched.workers && Sched.Enabled(t, Sched.YieldWrite(a.w, st))
    ensures Next(s, a).sched == Sched.Next(t, Sched.YieldWrite(a.w, st))
  {
    hide Sched.YieldStep, Fire, Timers.Inv;
    if a.RunTimer? {
      var cb := s.sched.workers[a.w].pc.e.task.cb;
      FireKeepsWorkers(s, cb, a.ok);
      t, st := Fire(s, cb, a.ok).sched, Sched.TERM;
    } else {
      t, st := s.sched, if a.Yield? then a.st else Sched.HOLD;
    }
  }

  /** A step of a worker between tasks, in a good state. */
  lemma InternalStep(s: State, a: Sched.Action)
    requires Inv(s) && (a.Decrement? || a.Settle?) && Sched.Enabled(s.sched, a)
    ensures Careful(s, Internal(a)) && Inv(Step(s, Internal(a)))
    ensures Step(s, Internal(a)).sched == Sched.Next(s.sched, a)
  {
    hide InvBut, Sched.Next, Timers.Inv;
    InvIsSound(s, {});
    RuntimeTheorems.StepKeeps(s, Internal(a));
  }

  lemma SwapIsCareful(s: State, a: Action)
    requires Enabled(s, a) && Leaver(a).Some?
    ensures Careful(s, a)
  {}

  lemma ComesBackWhole(s: State, a: Action)
    requires Inv(s) && NoneAway(s.sched) && Enabled(s, a) && Leaver(a).Some?
    ensures var s1 := Step(s, a);
            var b, c := Internal(Sched.Decrement(a.w)), Internal(Sched.Settle(a.w));
            && Careful(s, a) && (Enabled(s1, b) ==> Careful(s1, b))
            && (Enabled(Step(s1, b), c) ==> Careful(Step(s1, b), c))
            && Inv(Step(Step(s1, b), c)) && NoneAway(Step(Step(s1, b), c).sched)
  {
    hide InvBut, Next, Sched.Next, Sound, Careful;
    InvIsSound(s, {});
    SwapIsCareful(s, a);
    CarefulKeeps(s, a);
    var t, st := SwapSeen(s, a);
    ComesBack(t, a.w, st);
    var s1 := Step(s, a);
    InternalStep(s1, Sched.Decrement(a.w));
    InternalStep(Step(s1, Internal(Sched.Decrement(a.w))), Sched.Settle(a.w));
  }

  /** With nobody away nothing is on its way to be settled. */
  lemma NothingToSettle(s: State, w: nat)
    requires NoneAway(s.sched)
    ensures !Enabled(s, Internal(Sched.Decrement(w))) && !Enabled(s, Internal(Sched.Settle(w)))
  {}

  lemma OneWhole(s: State, a: Action)
    requires Inv(s) && NoneAway(s.sched) && Enabled(s, a) && Leaver(a).None? && !a.LateResize?
    requires !(a.Internal? && (a.a.Decrement? || a.a.Settle?))
    ensures Careful(s, a) && Inv(Step(s, a)) && NoneAway(Step(s, a).sched)
  {
    hide InvBut, Sound, Sched.Next, Timers.Inv, SchedApart.TakesTooEarly;
    InvIsSound(s, {});
    if a.Internal? {
      NotTooEarly(s.sched, a.a);
      StaysIn(s.sched, a.a);
    } else {
      WorkersStay(s, a);
    }
    CarefulKeeps(s, a);
  }

  /** From a state with nobody away, a whole run is careful. */
  lemma {:induction false} WholeIsCareful(s: State, acts: seq<Action>)
    requires Inv(s) && NoneAway(s.sched) && WholeRun(acts)
    ensures AllCareful(s, acts)
    decreases |acts|
  {
    hide InvBut, Step, Enabled, Careful;
    if acts != [] {
      if Leaver(acts[0]).Some? {
        SwapWhole(s, acts);
      } else {
        if Enabled(s, acts[0]) {
          OneWhole(s, acts[0]);
        } else {
          Stutters(s, acts[0]);
        }
        WholeIsCareful(Step(s, acts[0]), acts[1..]);
      }
    }
  }

  lemma Stutters(s: State, a: Action)
    requires !Enabled(s, a)
    ensures Step(s, a) == s
  {}

  lemma {:induction false} SwapWhole(s: State, acts: seq<Action>)
    requires Inv(s) && NoneAway(s.sched) && WholeRun(acts) && acts != [] && Leaver(acts[0]).Some?
    ensures AllCareful(s, acts)
    decreases |acts|, 0
  {
    hide InvBut, Step, Enabled, Careful;
    var w := acts[0].w;
    var s1 := Step(s, acts[0]);
    var s2 := Step(s1, acts[1]);
    if Enabled(s, acts[0]) {
      ComesBackWhole(s, acts[0]);
    } else {
      Stutters(s, acts[0]);
      NothingToSettle(s, w);
      Stutters(s, acts[1]);
      Stutters(s, acts[2]);
    }
    WholeIsCareful(Step(s2, acts[2]), acts[3..]);
    assert acts[1..][0] == acts[1] && acts[1..][1..] == acts[2..];
    assert acts[2..][0] == acts[2] && acts[2..][1..] == acts[3..];
    assert AllCareful(s2, acts[2..]);
    assert AllCareful(s1, acts[1..]);
  }

  /** Every whole run from the start is careful. */
  lemma WholeRunsAreCareful(s: State, acts: seq<Action>)
    requires Start(s) && WholeRun(acts)
    ensures AllCareful(s, acts)
  {
    hide InvBut;
    StartIsGood(s);
    WholeIsCareful(s, acts);
  }
}
