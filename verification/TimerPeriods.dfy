/**
  When timers are due, over every run: each pending timer's deadline is its period after the time it was last started,
  in 64-bit arithmetic.
 */
module TimerPeriods {
  import opened Options
  import opened Tasks
  import opened Words
  import opened Timers
  import opened TimerLife

  /** When a timer's period began, and how long it is. */
  datatype Period = Period(begun: nat, ms: nat)

  /** The clock has gone back by more than an hour, or at all in its first hour. */
  predicate WentBack(previous: nat, now: nat)
  {
    if previous >= 3_600_000 then now + 3_600_000 < previous else now < previous
  }

  predicate IsPending(w: World, id: nat)
  {
    id in w.s.order && id in w.s.all
  }

  /** The period of a timer after a step, from the arguments of the calls alone. */
  function After(w: World, a: Action, id: nat, p: Option<Period>): Option<Period>
  {
    match a
    case Add(x, ms, _, _, now) => if x == id && id !in w.s.all then Some(Period(now, ms)) else p
    case RefreshTimer(x, now) =>
      if x == id && IsPending(w, id) && p.Some? then Some(Period(now, p.value.ms)) else p
    case ResetTimer(x, ms, fromNow, now) =>
      if x == id && IsPending(w, id) && p.Some? then Some(Period(if fromNow then now else p.value.begun, ms)) else p
    case Expire(now, _) =>
      if && IsPending(w, id) && p.Some? && w.s.all[id].recurring
         && (w.s.all[id].next <= now || WentBack(w.s.previous, now))
      then Some(Period(now, p.value.ms)) else p
    case _ => p
  }

  /** The period of a timer at the end of a run. */
  function Last(w: World, acts: seq<Action>, id: nat, p: Option<Period>): Option<Period>
    requires LifeInv(w)
    decreases |acts|
  {
    if acts == [] then p else
      StepKeeps(w, acts[0]);
      Last(Step(w, acts[0]), acts[1..], id, After(w, acts[0], id, p))
  }

  /** A pending timer has the period, and is due at the end of it. */
  predicate Keeps(w: World, id: nat, p: Option<Period>)
  {
    && w.s.previous < WORD
    && (IsPending(w, id) ==>
          p.Some? && w.s.all[id].ms == p.value.ms && w.s.all[id].next == (p.value.begun + p.value.ms) % WORD)
  }

  /** The times calls are made at fit into 64 bits. */
  predicate Timed(a: Action)
  {
    a.Expire? ==> a.now < WORD
  }

  lemma ResetPeriod(w: World, id: nat, ms: nat, fromNow: bool, now: nat, p: Option<Period>)
    requires LifeInv(w) && Keeps(w, id, p) && IsPending(w, id)
    ensures var a := ResetTimer(id, ms, fromNow, now); Keeps(Step(w, a), id, After(w, a, id, p))
  {
    hide Inv, Reset;
    ResetKeeps(w.s, id, ms, fromNow, now);
    var t, b := w.s.all[id], p.value.begun;
    if ms != t.ms || fromNow {
      ResetStarts(w.s, id, ms, fromNow, now);
      SameStart(b, t.ms, ms);
    }
  }

  lemma SameStart(b: nat, ms: nat, ms': nat)
    ensures ((b + ms) % WORD - ms + ms') % WORD == (b + ms') % WORD
  {
    var x, q := b + ms, (b + ms) / WORD;
    assert x == q * WORD + x % WORD;
    ModShift(x % WORD - ms + ms', q);
  }

  lemma ExpirePeriod(w: World, id: nat, now: nat, probe: nat, p: Option<Period>)
    requires LifeInv(w) && Keeps(w, id, p) && now < WORD
    ensures var a := Expire(now, probe); Keeps(Step(w, a), id, After(w, a, id, p))
  {
    hide ListExpired, Sorted, Emitted, DueIds;
    ListExpiredExact(w.s, now, probe);
    RolloverExactly(w.s.previous, now);
    ExpireKeeps(w, now, probe);
  }

  lemma StepPeriod(w: World, a: Action, id: nat, p: Option<Period>)
    requires LifeInv(w) && Keeps(w, id, p) && Timed(a)
    ensures Keeps(Step(w, a), id, After(w, a, id, p))
  {
    hide Inv, AddTimer, Cancel, Refresh, Reset, ListExpired, Emitted;
    match a
    case Add(x, ms, cb, recurring, now) =>
      if x !in w.s.all {
        AddTimerKeeps(w.s, x, ms, cb, recurring, now);
      }
    case CancelTimer(x) =>
      if x in w.s.all {
        CancelKeeps(w.s, x);
      }
    case RefreshTimer(x, now) =>
      if x in w.s.all {
        RefreshKeeps(w.s, x, now);
      }
    case ResetTimer(x, ms, fromNow, now) =>
      if x == id && IsPending(w, id) {
        ResetPeriod(w, id, ms, fromNow, now, p);
      } else if x in w.s.all {
        ResetKeeps(w.s, x, ms, fromNow, now);
      }
    case Next(now) =>
    case Expire(now, probe) => ExpirePeriod(w, id, now, probe, p);
  }

  lemma {:induction false} RunPeriod(w: World, acts: seq<Action>, id: nat, p: Option<Period>)
    requires LifeInv(w) && Keeps(w, id, p) && forall i :: 0 <= i < |acts| ==> Timed(acts[i])
    ensures Keeps(Run(w, acts), id, Last(w, acts, id, p))
    decreases |acts|
  {
    hide Inv, Step, After, Keeps;
    if acts != [] {
      StepKeeps(w, acts[0]);
      StepPeriod(w, acts[0], id, p);
      RunPeriod(Step(w, acts[0]), acts[1..], id, After(w, acts[0], id, p));
    }
  }

  /**
    In every run of a new manager a pending timer is due its period after it was last added, refreshed, reset from now
    or put back on expiry, and its period is the one it was last given.
   */
  lemma DueExactly(acts: seq<Action>, id: nat)
    requires forall i :: 0 <= i < |acts| ==> Timed(acts[i])
    ensures var w, p := Reached(acts), Last(START, acts, id, None);
            IsPending(w, id) ==>
              && p.Some? && w.s.all[id].ms == p.value.ms && w.s.all[id].next == (p.value.begun + p.value.ms) % WORD
              && (p.value.begun + p.value.ms < WORD ==> w.s.all[id].next - w.s.all[id].ms == p.value.begun)
  {
    RunPeriod(START, acts, id, None);
  }

  // ----- a clock that goes back

  /** An expiry returns a pending timer's callback before its time exactly if the clock went back. */
  lemma EarlyExactly(w: World, now: nat, probe: nat, id: nat)
    requires LifeInv(w) && w.s.previous < WORD && IsPending(w, id)
    ensures multiset(Emitted(w.s, now, probe))[id] == 1 <==> w.s.all[id].next <= now || WentBack(w.s.previous, now)
  {
    hide Emitted;
    EmittedOnce(w.s, now, probe, id);
    RolloverExactly(w.s.previous, now);
  }

  /** A timer of 1000 added at time 10, and an expiry right after it. */
  function Set10(cb: Callback): seq<Action>
  {
    [Add(0, 1000, cb, false, 10), Expire(10, 1)]
  }

  lemma Waits10(cb: Callback)
    ensures var w := Reached(Set10(cb));
            && w.s.order == [0] && 0 in w.s.all && w.s.all[0].next == 1010 && w.s.previous == 10
            && !w.s.all[0].recurring && 0 in w.fired && w.fired[0] == 0
  {
    hide AddTimer, ListExpired, Emitted, LifeInv;
    var a, b := Add(0, 1000, cb, false, 10), Expire(10, 1);
    AddFirst(START.s, 1000, cb, 10);
    RunKeeps(START, []);
    Unroll(START, a, [b]);
    var w1 := Step(START, a);
    assert [b] + [] == [b] && [a] + [b] == Set10(cb);
    Unroll(w1, b, []);
    NotYet(w1);
  }

  lemma NotYet(w: World)
    requires LifeInv(w) && w.s.order == [0] && w.s.all.Keys == {0} && w.fired == map[0 := 0]
    requires w.s.all[0].next == 1010 && !w.s.all[0].recurring && w.s.previous == 0
    ensures var w' := Step(w, Expire(10, 1));
            && w'.s.order == [0] && 0 in w'.s.all && w'.s.all[0] == w.s.all[0] && w'.s.previous == 10
            && w'.fired == map[0 := 0]
  {
    hide ListExpired, Emitted, DueIds;
    RolloverExactly(0, 10);
    ListExpiredExact(w.s, 10, 1);
    ExpireKeeps(w, 10, 1);
    EmittedOnce(w.s, 10, 1, 0);
    assert 0 in w.s.order;
    Single(ListExpired(w.s, 10, 1).0);
  }

  /** At time 10 nothing is due; a millisecond less and a timer for 1010 fires. */
  lemma FirstHourFiresEarly(cb: Callback)
    ensures var w := Reached(Set10(cb) + [Expire(9, 1)]);
            0 in w.fired && w.fired[0] == 1 && 0 in w.s.all && w.s.all[0].next == 1010
  {
    hide ListExpired, Emitted, Inv, Set10, Run;
    StartLives();
    Waits10(cb);
    var w := Reached(Set10(cb));
    RunConcat(START, Set10(cb), [Expire(9, 1)]);
    assert [Expire(9, 1)] + [] == [Expire(9, 1)];
    Unroll(w, Expire(9, 1), []);
    Fires9(w);
    RunNone(Step(w, Expire(9, 1)));
  }

  lemma StartLives()
    ensures LifeInv(START)
  {}

  lemma RunNone(w: World)
    requires LifeInv(w)
    ensures Run(w, []) == w
  {}

  lemma Fires9(w: World)
    requires LifeInv(w) && w.s.order == [0] && 0 in w.s.all && w.s.previous == 10 && w.fired[0] == 0
    ensures var w' := Step(w, Expire(9, 1));
            && 0 in w'.fired && w'.fired[0] == 1 && 0 in w'.s.all
            && (!w.s.all[0].recurring ==> w'.s.all[0].next == w.s.all[0].next)
  {
    hide ListExpired, Emitted, DueIds;
    ListExpiredExact(w.s, 9, 1);
    EarlyExactly(w, 9, 1, 0);
    EmittedOnce(w.s, 9, 1, 0);
  }

  lemma Single(s: State)
    requires Inv(s) && s.all.Keys == {0} && 0 in s.order
    ensures s.order == [0]
  {
    SortedDistinct(s);
    forall i | 0 <= i < |s.order| ensures s.order[i] == 0 {
      assert s.order[i] in s.all;
    }
    assert s.order[0] == 0 && s.order[|s.order| - 1] == 0;
  }

  lemma {:induction false} RunConcat(w: World, a: seq<Action>, b: seq<Action>)
    requires LifeInv(w)
    ensures LifeInv(Run(w, a)) && Run(w, a + b) == Run(Run(w, a), b)
    decreases |a|
  {
    hide Inv, Step;
    RunKeeps(w, a);
    if a == [] {
      assert a + b == b;
    } else {
      assert (a + b)[0] == a[0] && (a + b)[1..] == a[1..] + b;
      StepKeeps(w, a[0]);
      RunConcat(Step(w, a[0]), a[1..], b);
    }
  }

  lemma Unroll(w: World, a: Action, rest: seq<Action>)
    requires LifeInv(w)
    ensures LifeInv(Step(w, a)) && Run(w, [a] + rest) == Run(Step(w, a), rest)
  {
    StepKeeps(w, a);
    assert ([a] + rest)[0] == a && ([a] + rest)[1..] == rest;
  }
}
