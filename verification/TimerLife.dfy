/** The life of timers over every run of the manager's operations. */
module TimerLife {
  import opened Options
  import opened Tasks
  import opened Timers

  datatype Action =
    | Add(id: nat, ms: nat, cb: Callback, recurring: bool, now: nat)
    | CancelTimer(id: nat)
    | RefreshTimer(id: nat, now: nat)
    | ResetTimer(id: nat, ms: nat, fromNow: bool, now: nat)
    | Next(now: nat)
    | Expire(now: nat, probe: nat)

  /** The manager's state, how often each timer was emitted, and which were cancelled. */
  datatype World = World(s: State, fired: map<nat, nat>, cancelled: set<nat>)

  const START := World(State(map[], [], false, 0), map[], {})

  /** Every operation from every state the invariant allows; one on an unknown timer, or adding a known one, is none. */
  function Step(w: World, a: Action): World
    requires Inv(w.s) && w.fired.Keys == w.s.all.Keys
  {
    match a
    case Add(id, ms, cb, recurring, now) =>
      if id in w.s.all then w
      else w.(s := AddTimer(w.s, id, ms, cb, recurring, now).0, fired := w.fired[id := 0])
    case CancelTimer(id) =>
      if id !in w.s.all then w else
        var (s', ok) := Cancel(w.s, id);
        w.(s := s', cancelled := if ok then w.cancelled + {id} else w.cancelled)
    case RefreshTimer(id, now) =>
      if id !in w.s.all then w else w.(s := Refresh(w.s, id, now).0)
    case ResetTimer(id, ms, fromNow, now) =>
      if id !in w.s.all then w else w.(s := Reset(w.s, id, ms, fromNow, now).0)
    case Next(now) => w.(s := GetNextTimer(w.s, now).0)
    case Expire(now, probe) =>
      w.(s := ListExpired(w.s, now, probe).0,
         fired := map id | id in w.s.all :: w.fired[id] + multiset(Emitted(w.s, now, probe))[id])
  }

  /** The timers whose callbacks an expiry returns, in the order it returns them. */
  function Emitted(s: State, now: nat, probe: nat): (ids: seq<nat>)
    requires Inv(s)
    ensures var cbs := ListExpired(s, now, probe).1;
            |ids| == |cbs| && forall i :: 0 <= i < |ids| ==> ids[i] in s.all && s.all[ids[i]].cb == Some(cbs[i])
  {
    ListExpiredExact(s, now, probe);
    s.order[..|ListExpired(s, now, probe).1|]
  }

  /** No timer's callback is returned twice, and those returned are the due ones. */
  lemma EmittedOnce(s: State, now: nat, probe: nat, id: nat)
    requires Inv(s)
    ensures multiset(Emitted(s, now, probe))[id] == if id in s.order && Due(s, now, id) then 1 else 0
  {
    hide ListExpired, Due, Sorted, DueIds, Deadline;
    ListExpiredExact(s, now, probe);
    SortedDistinct(s);
    assert Emitted(s, now, probe) == DueIds(s, now, s.order);
    CountDistinct(Emitted(s, now, probe), id);
  }

  lemma {:induction false} CountDistinct(ids: seq<nat>, id: nat)
    requires Distinct(ids)
    ensures multiset(ids)[id] == if id in ids then 1 else 0
  {
    if ids != [] {
      assert ids == [ids[0]] + ids[1..];
      CountDistinct(ids[1..], id);
      assert forall j :: 0 <= j < |ids[1..]| ==> ids[1..][j] == ids[j + 1] && ids[j + 1] != ids[0];
    }
  }

  /** Where a one-shot timer is in its life. */
  predicate Pending(w: World, id: nat)
    requires id in w.fired
  {
    id in w.s.order && w.fired[id] == 0 && id !in w.cancelled
  }

  predicate FiredOnce(w: World, id: nat)
    requires id in w.fired
  {
    id !in w.s.order && w.fired[id] == 1 && id !in w.cancelled
  }

  predicate Cancelled(w: World, id: nat)
    requires id in w.fired
  {
    id !in w.s.order && w.fired[id] == 0 && id in w.cancelled
  }

  predicate LifeInv(w: World)
  {
    && Inv(w.s) && w.fired.Keys == w.s.all.Keys && w.cancelled <= w.s.all.Keys
    && (forall id :: id in w.cancelled ==> id !in w.s.order)
    && (forall id :: id in w.s.all && !w.s.all[id].recurring ==>
          Pending(w, id) || FiredOnce(w, id) || Cancelled(w, id))
  }

  lemma StepKeeps(w: World, a: Action)
    requires LifeInv(w)
    ensures LifeInv(Step(w, a))
    ensures forall id :: id in w.cancelled ==> id in Step(w, a).cancelled && Step(w, a).fired[id] == w.fired[id]
  {
    hide Inv, AddTimer, Cancel, Refresh, Reset, ListExpired, Emitted;
    match a
    case Add(id, ms, cb, recurring, now) =>
      if id !in w.s.all {
        AddTimerKeeps(w.s, id, ms, cb, recurring, now);
        NotPending(w.s, id);
      }
    case CancelTimer(id) =>
      if id in w.s.all {
        CancelKeeps(w.s, id);
      }
    case RefreshTimer(id, now) =>
      if id in w.s.all {
        RefreshKeeps(w.s, id, now);
      }
    case ResetTimer(id, ms, fromNow, now) =>
      if id in w.s.all {
        ResetKeeps(w.s, id, ms, fromNow, now);
      }
    case Next(now) => NextKeeps(w.s, now);
    case Expire(now, probe) => ExpireStep(w, now, probe);
  }

  lemma ExpireStep(w: World, now: nat, probe: nat)
    requires LifeInv(w)
    ensures LifeInv(Step(w, Expire(now, probe)))
    ensures forall id :: id in w.cancelled ==>
              id in Step(w, Expire(now, probe)).cancelled && Step(w, Expire(now, probe)).fired[id] == w.fired[id]
  {
    hide Inv, ListExpired, Due, Emitted;
    ExpireKeeps(w, now, probe);
    forall id | id in w.s.all
      ensures multiset(Emitted(w.s, now, probe))[id] == if id in w.s.order && Due(w.s, now, id) then 1 else 0
    {
      EmittedOnce(w.s, now, probe, id);
    }
  }

  lemma NotPending(s: State, id: nat)
    requires Inv(s) && id !in s.all
    ensures id !in s.order
  {}

  lemma ExpireKeeps(w: World, now: nat, probe: nat)
    requires LifeInv(w)
    ensures var s' := ListExpired(w.s, now, probe).0;
            Inv(s') && s'.all.Keys == w.s.all.Keys && forall id :: id in w.s.all ==>
              s'.all[id].recurring == w.s.all[id].recurring
              && (id in s'.order <==> id in w.s.order && (w.s.all[id].recurring || !Due(w.s, now, id)))
  {
    ListExpiredExact(w.s, now, probe);
  }

  function Run(w: World, acts: seq<Action>): World
    requires LifeInv(w)
    decreases |acts|
  {
    if acts == [] then w else
      StepKeeps(w, acts[0]);
      Run(Step(w, acts[0]), acts[1..])
  }

  /** From any good state, a whole run ends in one, and cancelled timers are never emitted again on the way. */
  lemma {:induction false} RunKeeps(w: World, acts: seq<Action>)
    requires LifeInv(w)
    ensures LifeInv(Run(w, acts))
    ensures forall id :: id in w.cancelled ==> id in Run(w, acts).cancelled && Run(w, acts).fired[id] == w.fired[id]
    decreases |acts|
  {
    if acts != [] {
      StepKeeps(w, acts[0]);
      RunKeeps(Step(w, acts[0]), acts[1..]);
    }
  }

  /** The state after any sequence of operations on a new manager. */
  function Reached(acts: seq<Action>): (w: World)
    ensures LifeInv(w)
  {
    RunKeeps(START, acts);
    Run(START, acts)
  }

  /** In every reachable state a one-shot timer is exactly one of pending, fired once, cancelled. */
  lemma OneShotLife(acts: seq<Action>, id: nat)
    requires id in Reached(acts).s.all && !Reached(acts).s.all[id].recurring
    ensures var w := Reached(acts);
            || (Pending(w, id) && !FiredOnce(w, id) && !Cancelled(w, id))
            || (!Pending(w, id) && FiredOnce(w, id) && !Cancelled(w, id))
            || (!Pending(w, id) && !FiredOnce(w, id) && Cancelled(w, id))
  {
    RunKeeps(START, acts);
  }

  /** After a cancel that returned true, whatever follows, the timer is not emitted again. */
  lemma CancelIsFinal(before: seq<Action>, id: nat, after: seq<Action>)
    requires id in Reached(before).s.all && Cancel(Reached(before).s, id).1
    ensures var w := Step(Reached(before), CancelTimer(id));
            LifeInv(w) && id in Run(w, after).fired && Run(w, after).fired[id] == Reached(before).fired[id]
  {
    var w := Reached(before);
    StepKeeps(w, CancelTimer(id));
    RunKeeps(Step(w, CancelTimer(id)), after);
  }
}
