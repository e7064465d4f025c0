/** The timer manager as an object whose locked operations change its fields. */
module TimerManagers {
  import opened Options
  import opened Tasks
  import T = Timers

  lemma FirstThere(t: T.State, expired: seq<nat>)
    requires T.InvBut(t, expired)
    ensures forall j :: 0 <= j < |expired| ==> expired[j] in t.all
  {
    assert forall j :: 0 <= j < |expired| ==> expired[j] in expired;
  }

  lemma SettleNone(t: T.State, now: nat)
    requires T.InvBut(t, [])
    ensures T.Distinct([]) && T.SettleAll(t, [], now) == t
  {}

  /** Settling the rest of a sequence is settling its first timer and then the rest of that. */
  lemma SettleOne(t: T.State, expired: seq<nat>, i: nat, now: nat)
    requires i < |expired| && T.InvBut(t, expired[i..]) && T.Distinct(expired[i..])
    ensures var id := expired[i];
            && T.Known(t) && T.Sorted(t) && id in t.all && id !in t.order && t.all[id].cb.Some?
            && T.InvBut(T.Settle(t, id, now), expired[i + 1..]) && T.Distinct(expired[i + 1..])
            && T.SettleAll(t, expired[i..], now) == T.SettleAll(T.Settle(t, id, now), expired[i + 1..], now)
            && (forall j :: i < j < |expired| ==> expired[j] != id)
  {
    hide T.Before, T.LowerBound, T.Sorted, T.Deadline, T.Settle;
    var rest := expired[i..];
    T.SettleKeeps(t, rest, now);
    assert rest[0] == expired[i] && rest[1..] == expired[i + 1..];
    assert rest[0] in rest;
    forall j | i < j < |expired| ensures expired[j] != expired[i] {
      assert rest[j - i] == expired[j];
    }
  }

  class TimerManager {
    var all: map<nat, T.Timer>
    var order: seq<nat>
    var tickled: bool
    var previous: nat

    ghost function State(): T.State
      reads this
    {
      T.State(all, order, tickled, previous)
    }

    constructor (now: nat)
      ensures State() == T.State(map[], [], false, now) && T.Inv(State())
    {
      all := map[];
      order := [];
      tickled := false;
      previous := now;
    }

    /** The first pending timer not before a key. */
    method LowerBound(k: T.Key) returns (i: nat)
      requires T.Known(State())
      ensures i == T.LowerBound(State(), k, 0)
    {
      i := 0;
      while i < |order| && T.Before(T.Key(all[order[i]].next, order[i]), k)
        invariant i <= |order|
        invariant T.LowerBound(State(), k, i) == T.LowerBound(State(), k, 0)
      {
        i := i + 1;
      }
    }

    /** Puts a timer into the set; the caller must wake the poller when told so. */
    method Publish(id: nat) returns (front: bool)
      requires T.Known(State()) && id in all
      modifies this`order, this`tickled
      ensures (State(), front) == T.Publish(old(State()), id)
    {
      var i := LowerBound(T.Key(all[id].next, id));
      order := order[..i] + [id] + order[i..];
      front := i == 0 && !tickled;
      if front {
        tickled := true;
      }
    }

    /** Takes a timer out of the set by looking its key up. */
    method Erase(id: nat)
      requires T.Known(State()) && id in all && T.Found(State(), id)
      modifies this`order
      ensures State() == T.Erase(old(State()), id)
    {
      var i := LowerBound(T.Key(all[id].next, id));
      order := order[..i] + order[i + 1..];
    }

    method AddTimer(id: nat, ms: nat, cb: Callback, recurring: bool, now: nat) returns (front: bool)
      requires T.Inv(State()) && id !in all
      modifies this
      ensures (State(), front) == T.AddTimer(old(State()), id, ms, cb, recurring, now)
      ensures T.Inv(State())
    {
      T.AddTimerKeeps(State(), id, ms, cb, recurring, now);
      all := all[id := T.Timer(ms, T.Deadline(now, ms), recurring, Some(cb))];
      front := Publish(id);
    }

    method Cancel(id: nat) returns (ok: bool)
      requires T.Inv(State()) && id in all
      modifies this
      ensures (State(), ok) == T.Cancel(old(State()), id)
      ensures T.Inv(State())
    {
      T.CancelKeeps(State(), id);
      if all[id].cb.None? {
        return false;
      }
      ghost var s := State();
      all := all[id := all[id].(cb := None)];
      T.SameKeys(s, State());
      T.FindsPending(State(), id);
      Erase(id);
      return true;
    }

    method Refresh(id: nat, now: nat) returns (ok: bool)
      requires T.Inv(State()) && id in all
      modifies this
      ensures (State(), ok) == T.Refresh(old(State()), id, now)
      ensures T.Inv(State())
    {
      T.RefreshKeeps(State(), id, now);
      if all[id].cb.None? {
        return false;
      }
      T.FindsPending(State(), id);
      T.EraseSorted(State(), id);
      Erase(id);
      all := all[id := all[id].(next := T.Deadline(now, all[id].ms))];
      var i := LowerBound(T.Key(all[id].next, id));
      order := order[..i] + [id] + order[i..];
      return true;
    }

    method Reset(id: nat, ms: nat, fromNow: bool, now: nat) returns (ok: bool, front: bool)
      requires T.Inv(State()) && id in all
      modifies this
      ensures (State(), ok, front) == T.Reset(old(State()), id, ms, fromNow, now)
      ensures T.Inv(State())
    {
      T.ResetKeeps(State(), id, ms, fromNow, now);
      if ms == all[id].ms && !fromNow {
        return true, false;
      }
      if all[id].cb.None? {
        return false, false;
      }
      T.FindsPending(State(), id);
      T.EraseSorted(State(), id);
      Erase(id);
      var start := T.Start(all[id], fromNow, now);
      all := all[id := all[id].(ms := ms, next := T.Deadline(start, ms))];
      front := Publish(id);
      ok := true;
    }

    method GetNextTimer(now: nat) returns (timeout: nat)
      requires T.Inv(State())
      modifies this`tickled
      ensures (State(), timeout) == T.GetNextTimer(old(State()), now)
      ensures T.Inv(State())
    {
      T.SameKeys(State(), State().(tickled := false));
      tickled := false;
      if order == [] {
        return T.NEVER;
      }
      var next := all[order[0]].next;
      timeout := if now >= next then 0 else next - now;
    }

    /** Collects the callbacks of the expired timers and settles those timers. */
    method ListExpiredCb(now: nat, probe: nat) returns (cbs: seq<Callback>)
      requires T.Inv(State())
      modifies this
      ensures (State(), cbs) == T.ListExpired(old(State()), now, probe)
      ensures T.Inv(State())
    {
      hide T.ExpiredEnd, T.SettleAll, T.LowerBound, T.Before, T.Rollover, T.Distinct, T.Sorted, T.DueIds, T.Due,
          T.Settled;
      T.ListExpiredExact(State(), now, probe);
      cbs := [];
      if order == [] {
        return;
      }
      var rollover := T.Rollover(previous, now);
      T.SameKeys(State(), State().(previous := now));
      previous := now;
      if !rollover && all[order[0]].next > now {
        return;
      }
      var end := ExpiredEnd(now, probe, rollover);
      T.TakeOut(State(), end);
      var expired := order[..end];
      order := order[end..];
      cbs := SettleAll(expired, now);
      assert cbs == T.Callbacks(old(State()), expired);
    }

    method ExpiredEnd(now: nat, probe: nat, rollover: bool) returns (i: nat)
      requires T.Known(State())
      ensures i == T.ExpiredEnd(State(), now, probe, rollover)
    {
      if rollover {
        i := |order|;
      } else {
        i := LowerBound(T.Key(now, probe));
      }
      ghost var from := i;
      while i < |order| && all[order[i]].next == now
        invariant from <= i <= |order|
        invariant T.SkipEqual(State(), now, i) == T.SkipEqual(State(), now, from)
      {
        i := i + 1;
      }
    }

    /** The loop over the expired timers: each callback is taken, then the timer put back or stripped. */
    method Settle(id: nat, now: nat)
      requires T.Known(State()) && T.Sorted(State()) && id in all && id !in order
      modifies this`all, this`order
      ensures State() == T.Settle(old(State()), id, now)
      ensures forall x :: x in old(all) && x != id ==> x in all && all[x] == old(all)[x]
    {
      hide T.Before, T.LowerBound, T.Deadline;
      if all[id].recurring {
        T.SameKeys(State(), State().(all := all[id := all[id].(next := T.Deadline(now, all[id].ms))]));
        all := all[id := all[id].(next := T.Deadline(now, all[id].ms))];
        var k := LowerBound(T.Key(all[id].next, id));
        order := order[..k] + [id] + order[k..];
      } else {
        all := all[id := all[id].(cb := None)];
      }
    }

    method SettleAll(expired: seq<nat>, now: nat) returns (cbs: seq<Callback>)
      requires T.InvBut(State(), expired) && T.Distinct(expired)
      modifies this`all, this`order
      ensures State() == T.SettleAll(old(State()), expired, now)
      ensures |cbs| == |expired|
      ensures forall i :: 0 <= i < |expired| ==> expired[i] in old(all) && Some(cbs[i]) == old(all)[expired[i]].cb
    {
      hide T.Before, T.LowerBound, T.Sorted, T.Deadline, T.Settle, T.SettleAll, T.InvBut, T.Distinct;
      cbs := [];
      FirstThere(State(), expired);
      var i := 0;
      assert expired[0..] == expired;
      while i < |expired|
        invariant 0 <= i <= |expired| == i + |expired[i..]|
        invariant T.InvBut(State(), expired[i..]) && T.Distinct(expired[i..])
        invariant T.SettleAll(State(), expired[i..], now) == T.SettleAll(old(State()), expired, now)
        invariant |cbs| == i && forall j :: 0 <= j < i ==>
            expired[j] in old(all) && Some(cbs[j]) == old(all)[expired[j]].cb
        invariant forall j :: i <= j < |expired| ==>
            expired[j] in old(all) && expired[j] in all && all[expired[j]] == old(all)[expired[j]]
      {
        var id := expired[i];
        SettleOne(State(), expired, i, now);
        cbs := cbs + [all[id].cb.value];
        Settle(id, now);
        i := i + 1;
      }
      assert expired[i..] == [];
      SettleNone(State(), now);
    }
  }
}
