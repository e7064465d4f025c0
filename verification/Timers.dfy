/** The timer set: operations under the manager's lock, as functions of its state. */
module Timers {
  import opened Options
  import opened Tasks
  import opened Words

  const NEVER := WORD - 1
  const HOUR := 60 * 60 * 1000

  /** A timer is identified by its address. */
  datatype Timer = Timer(ms: nat, next: nat, recurring: bool, cb: Option<Callback>)

  /** Every timer ever published, and the ordered set of those that are pending. */
  datatype State = State(all: map<nat, Timer>, order: seq<nat>, tickled: bool, previous: nat)

  datatype Key = Key(next: nat, addr: nat)

  /** The comparator on pointers that may be null. */
  predicate Comparator(l: Option<Key>, r: Option<Key>)
  {
    if l.None? && r.None? then false
    else if l.None? then true
    else if r.None? then false
    else if l.value.next < r.value.next then true
    else if l.value.next > r.value.next then false
    else l.value.addr < r.value.addr
  }

  /** It orders all pointers strictly and totally, as an ordered set demands of it. */
  lemma ComparatorIsStrictTotalOrder(a: Option<Key>, b: Option<Key>, c: Option<Key>)
    ensures !Comparator(a, a)
    ensures Comparator(a, b) && Comparator(b, c) ==> Comparator(a, c)
    ensures a == b || Comparator(a, b) || Comparator(b, a)
    ensures !(Comparator(a, b) && Comparator(b, a))
  {}

  predicate Before(a: Key, b: Key)
  {
    Comparator(Some(a), Some(b))
  }

  /** An absolute time in a 64-bit word. */
  function Deadline(now: nat, ms: nat): (t: nat)
    ensures t < WORD
    ensures t == now + ms <==> now + ms < WORD
    ensures WORD <= now + ms < 2 * WORD ==> t == now + ms - WORD
  {
    (now + ms) % WORD
  }

  function KeyOf(s: State, id: nat): Key
    requires id in s.all
  {
    Key(s.all[id].next, id)
  }

  predicate Known(s: State)
  {
    forall i :: 0 <= i < |s.order| ==> s.order[i] in s.all
  }

  predicate Sorted(s: State)
    requires Known(s)
  {
    forall i, j :: 0 <= i < j < |s.order| ==> Before(KeyOf(s, s.order[i]), KeyOf(s, s.order[j]))
  }

  /** The invariant with some timers taken out of the set but not yet settled. */
  predicate InvBut(s: State, out: seq<nat>)
  {
    && Known(s) && Sorted(s)
    && (forall id :: id in s.all ==> (s.all[id].cb.Some? <==> id in s.order || id in out))
    && (forall id :: id in out ==> id in s.all && id !in s.order)
  }

  /** A published timer has a callback exactly while it is in the set, and the set is in key order. */
  predicate Inv(s: State)
  {
    InvBut(s, [])
  }

  // ----- the ordered set

  /** The first element not before a key, looking from index `i` on. */
  function LowerBound(s: State, k: Key, i: nat): (r: nat)
    requires Known(s) && i <= |s.order|
    ensures i <= r <= |s.order|
    decreases |s.order| - i
  {
    if i < |s.order| && Before(KeyOf(s, s.order[i]), k) then LowerBound(s, k, i + 1) else i
  }

  lemma {:induction false} LowerBoundSplits(s: State, k: Key, i: nat)
    requires Known(s) && Sorted(s) && i <= |s.order|
    ensures forall j :: i <= j < LowerBound(s, k, i) ==> Before(KeyOf(s, s.order[j]), k)
    ensures forall j :: LowerBound(s, k, i) <= j < |s.order| ==> !Before(KeyOf(s, s.order[j]), k)
    decreases |s.order| - i
  {
    if i < |s.order| && Before(KeyOf(s, s.order[i]), k) {
      LowerBoundSplits(s, k, i + 1);
    }
  }

  predicate Found(s: State, id: nat)
    requires Known(s) && id in s.all
  {
    var i := LowerBound(s, KeyOf(s, id), 0);
    i < |s.order| && !Before(KeyOf(s, id), KeyOf(s, s.order[i]))
  }

  /** Looking a pending timer up finds it: its key has not changed since it was put in. */
  lemma FindsPending(s: State, id: nat)
    requires Known(s) && Sorted(s) && id in s.order
    ensures Found(s, id) && s.order[LowerBound(s, KeyOf(s, id), 0)] == id
  {
    LowerBoundSplits(s, KeyOf(s, id), 0);
    var j :| 0 <= j < |s.order| && s.order[j] == id;
    SortedAt(s, LowerBound(s, KeyOf(s, id), 0), j);
  }

  lemma SortedAt(s: State, i: nat, j: nat)
    requires Known(s) && Sorted(s)
    ensures i < j < |s.order| ==> Before(KeyOf(s, s.order[i]), KeyOf(s, s.order[j]))
  {}

  function Insert(s: State, id: nat): State
    requires Known(s) && id in s.all
  {
    var i := LowerBound(s, KeyOf(s, id), 0);
    s.(order := s.order[..i] + [id] + s.order[i..])
  }

  function Erase(s: State, id: nat): State
    requires Known(s) && id in s.all && Found(s, id)
  {
    var i := LowerBound(s, KeyOf(s, id), 0);
    s.(order := s.order[..i] + s.order[i + 1..])
  }

  lemma InsertSorted(s: State, id: nat)
    requires Known(s) && Sorted(s) && id in s.all && id !in s.order
    ensures Known(Insert(s, id)) && Sorted(Insert(s, id))
    ensures forall x :: x in Insert(s, id).order <==> x in s.order || x == id
  {
    hide Before, LowerBound;
    var i := LowerBound(s, KeyOf(s, id), 0);
    LowerBoundSplits(s, KeyOf(s, id), 0);
    var s' := Insert(s, id);
    InsertMembers(s.order, i, id);
    forall j | i <= j < |s.order| ensures Before(KeyOf(s, id), KeyOf(s, s.order[j])) {
      Trichotomy(KeyOf(s, id), KeyOf(s, s.order[j]));
    }
    forall j, k | 0 <= j < k < |s'.order| ensures Before(KeyOf(s', s'.order[j]), KeyOf(s', s'.order[k])) {
      var j0, k0 := if j <= i then j else j - 1, if k <= i then k else k - 1;
      if j != i && k != i {
        assert Before(KeyOf(s, s.order[j0]), KeyOf(s, s.order[k0]));
      }
    }
  }

  lemma Trichotomy(a: Key, b: Key)
    ensures a == b || Before(a, b) || Before(b, a)
  {}

  lemma InsertMembers(o: seq<nat>, i: nat, id: nat)
    requires i <= |o|
    ensures forall x :: x in o[..i] + [id] + o[i..] <==> x in o || x == id
  {
    assert o == o[..i] + o[i..];
  }

  lemma EraseSorted(s: State, id: nat)
    requires Known(s) && Sorted(s) && id in s.order
    ensures Found(s, id) && Known(Erase(s, id)) && Sorted(Erase(s, id))
    ensures forall x :: x in Erase(s, id).order <==> x in s.order && x != id
  {
    FindsPending(s, id);
    var i := LowerBound(s, KeyOf(s, id), 0);
    var s' := Erase(s, id);
    assert s.order == s.order[..i] + [id] + s.order[i + 1..];
    SortedDistinct(s);
    forall j | 0 <= j < |s'.order| ensures s'.order[j] != id {
      assert s'.order[j] == s.order[if j < i then j else j + 1];
    }
  }

  // ----- the operations

  /** Puts a timer into the set and says whether the poller must be woken: only for a new front, once. */
  function Publish(s: State, id: nat): (State, bool)
    requires Known(s) && id in s.all
  {
    var front := LowerBound(s, KeyOf(s, id), 0) == 0 && !s.tickled;
    (Insert(s, id).(tickled := s.tickled || front), front)
  }

  function AddTimer(s: State, id: nat, ms: nat, cb: Callback, recurring: bool, now: nat): (State, bool)
    requires Inv(s) && id !in s.all
  {
    Publish(s.(all := s.all[id := Timer(ms, Deadline(now, ms), recurring, Some(cb))]), id)
  }

  /** Drops the callback, then takes the timer out of the set. */
  function Cancel(s: State, id: nat): (State, bool)
    requires Inv(s) && id in s.all
  {
    if s.all[id].cb.None? then (s, false) else
      var s1 := s.(all := s.all[id := s.all[id].(cb := None)]);
      SameKeys(s, s1);
      FindsPending(s1, id);
      (Erase(s1, id), true)
  }

  /** Starts the period over; a timer that moves is out of the set while its key changes. */
  function Refresh(s: State, id: nat, now: nat): (State, bool)
    requires Inv(s) && id in s.all
  {
    if s.all[id].cb.None? then (s, false) else
      FindsPending(s, id);
      EraseSorted(s, id);
      var s1 := Erase(s, id);
      (Insert(s1.(all := s1.all[id := s1.all[id].(next := Deadline(now, s1.all[id].ms))]), id), true)
  }

  /** When the current period began, in 64-bit arithmetic. */
  function Start(t: Timer, fromNow: bool, now: nat): nat
  {
    if fromNow then now else (t.next - t.ms) % WORD
  }

  /** Changes the period, counted from now or from when the timer was last started. */
  function Reset(s: State, id: nat, ms: nat, fromNow: bool, now: nat): (State, bool, bool)
    requires Inv(s) && id in s.all
  {
    var t := s.all[id];
    if ms == t.ms && !fromNow then (s, true, false)
    else if t.cb.None? then (s, false, false)
    else
      FindsPending(s, id);
      EraseSorted(s, id);
      var s1 := Erase(s, id);
      var (s2, front) := Publish(s1.(all := s1.all[id := t.(ms := ms, next := Deadline(Start(t, fromNow, now), ms))]),
          id);
      (s2, true, front)
  }

  /** How long to wait for the first timer; the wake flag is cleared. */
  function GetNextTimer(s: State, now: nat): (State, nat)
    requires Known(s)
  {
    var s' := s.(tickled := false);
    if s.order == [] then (s', NEVER)
    else
      var next := s.all[s.order[0]].next;
      (s', if now >= next then 0 else next - now)
  }

  /** The clock went back by more than an hour; the subtraction is done in 64 bits. */
  predicate Rollover(previous: nat, now: nat)
  {
    now < previous && now < (previous - HOUR) % WORD
  }

  function SkipEqual(s: State, now: nat, i: nat): (r: nat)
    requires Known(s) && i <= |s.order|
    ensures i <= r <= |s.order|
    decreases |s.order| - i
  {
    if i < |s.order| && s.all[s.order[i]].next == now then SkipEqual(s, now, i + 1) else i
  }

  /** Where the expired timers end: a probe with deadline `now` is looked up, then equal deadlines are skipped. */
  function ExpiredEnd(s: State, now: nat, probe: nat, rollover: bool): (r: nat)
    requires Known(s)
    ensures r <= |s.order|
  {
    SkipEqual(s, now, if rollover then |s.order| else LowerBound(s, Key(now, probe), 0))
  }

  function Callbacks(s: State, ids: seq<nat>): (cbs: seq<Callback>)
    requires forall i :: 0 <= i < |ids| ==> ids[i] in s.all && s.all[ids[i]].cb.Some?
    ensures |cbs| == |ids|
    ensures forall i :: 0 <= i < |ids| ==> cbs[i] == s.all[ids[i]].cb.value
  {
    seq(|ids|, i requires 0 <= i < |ids| => s.all[ids[i]].cb.value)
  }

  /** An expired timer taken out of the set: put back a period later, or stripped of its callback. */
  function Settle(s: State, id: nat, now: nat): State
    requires Known(s) && id in s.all
  {
    var t := s.all[id];
    if t.recurring then Insert(s.(all := s.all[id := t.(next := Deadline(now, t.ms))]), id)
    else s.(all := s.all[id := t.(cb := None)])
  }

  function SettleAll(s: State, ids: seq<nat>, now: nat): State
    requires InvBut(s, ids) && Distinct(ids)
    decreases |ids|
  {
    if ids == [] then s else
      SettleKeeps(s, ids, now);
      SettleAll(Settle(s, ids[0], now), ids[1..], now)
  }

  predicate Distinct(ids: seq<nat>)
  {
    forall i, j :: 0 <= i < j < |ids| ==> ids[i] != ids[j]
  }

  function ListExpired(s: State, now: nat, probe: nat): (State, seq<Callback>)
    requires Inv(s)
  {
    if s.order == [] then (s, []) else
      var rollover := Rollover(s.previous, now);
      var s1 := s.(previous := now);
      if !rollover && s.all[s.order[0]].next > now then (s1, []) else
        var end := ExpiredEnd(s1, now, probe, rollover);
        TakeOut(s1, end);
        (SettleAll(s1.(order := s.order[end..]), s.order[..end], now), Callbacks(s, s.order[..end]))
  }

  // ----- what the operations keep

  lemma SameKeys(s: State, s': State)
    requires Known(s) && Sorted(s)
    requires s'.order == s.order && s.all.Keys <= s'.all.Keys
    requires forall id :: id in s.order ==> s'.all[id].next == s.all[id].next
    ensures Known(s') && Sorted(s')
  {
    forall i, j | 0 <= i < j < |s.order| ensures Before(KeyOf(s', s'.order[i]), KeyOf(s', s'.order[j])) {
      assert Before(KeyOf(s, s.order[i]), KeyOf(s, s.order[j]));
    }
  }

  lemma SortedDistinct(s: State)
    requires Known(s) && Sorted(s)
    ensures Distinct(s.order)
  {
    forall i, j | 0 <= i < j < |s.order| ensures s.order[i] != s.order[j] {
      assert Before(KeyOf(s, s.order[i]), KeyOf(s, s.order[j]));
    }
  }

  lemma TakeOut(s: State, end: nat)
    requires Inv(s) && end <= |s.order|
    ensures InvBut(s.(order := s.order[end..]), s.order[..end]) && Distinct(s.order[..end])
    ensures forall i :: 0 <= i < end ==> s.order[..end][i] in s.all && s.all[s.order[..end][i]].cb.Some?
  {
    hide Before;
    SortedDistinct(s);
    var s', out := s.(order := s.order[end..]), s.order[..end];
    assert s.order == out + s'.order;
    forall i, j | 0 <= i < |out| && 0 <= j < |s'.order| ensures out[i] != s'.order[j] {
      assert out[i] == s.order[i] && s'.order[j] == s.order[end + j];
    }
  }

  lemma SettleKeeps(s: State, ids: seq<nat>, now: nat)
    requires InvBut(s, ids) && Distinct(ids) && ids != []
    ensures InvBut(Settle(s, ids[0], now), ids[1..]) && Distinct(ids[1..])
  {
    hide Before, LowerBound;
    var id := ids[0];
    var t := s.all[id];
    assert ids == [id] + ids[1..];
    assert id !in ids[1..] by {
      assert forall j :: 0 <= j < |ids[1..]| ==> ids[1..][j] == ids[j + 1] && ids[j + 1] != ids[0];
    }
    if t.recurring {
      var s1 := s.(all := s.all[id := t.(next := Deadline(now, t.ms))]);
      SameKeys(s, s1);
      InsertSorted(s1, id);
    } else {
      SameKeys(s, s.(all := s.all[id := t.(cb := None)]));
    }
  }

  lemma AddTimerKeeps(s: State, id: nat, ms: nat, cb: Callback, recurring: bool, now: nat)
    requires Inv(s) && id !in s.all
    ensures var (s', front) := AddTimer(s, id, ms, cb, recurring, now);
            && Inv(s')
            && s'.all == s.all[id := Timer(ms, Deadline(now, ms), recurring, Some(cb))]
            && s'.previous == s.previous
            && (front <==> !s.tickled && s'.order[0] == id) && s'.tickled == (s.tickled || front)
            && (forall x :: x in s'.order <==> x in s.order || x == id)
  {
    hide Before, LowerBound;
    var s1 := s.(all := s.all[id := Timer(ms, Deadline(now, ms), recurring, Some(cb))]);
    SameKeys(s, s1);
    InsertSorted(s1, id);
    FrontIsFirst(s1, id);
  }

  /** The first timer of an empty set. */
  lemma AddFirst(s: State, ms: nat, cb: Callback, now: nat)
    requires s == State(map[], [], false, s.previous)
    ensures Inv(s)
    ensures AddTimer(s, 0, ms, cb, false, now)
         == (State(map[0 := Timer(ms, Deadline(now, ms), false, Some(cb))], [0], true, s.previous), true)
  {
    hide Deadline;
    var s1 := s.(all := s.all[0 := Timer(ms, Deadline(now, ms), false, Some(cb))]);
    assert LowerBound(s1, KeyOf(s1, 0), 0) == 0;
    assert [] + [0] + [] == [0];
  }

  lemma FrontIsFirst(s: State, id: nat)
    requires Known(s) && Sorted(s) && id in s.all && id !in s.order
    ensures LowerBound(s, KeyOf(s, id), 0) == 0 <==> Insert(s, id).order[0] == id
  {
    var i := LowerBound(s, KeyOf(s, id), 0);
    if i > 0 {
      assert Insert(s, id).order[0] == s.order[0];
    }
  }

  lemma CancelKeeps(s: State, id: nat)
    requires Inv(s) && id in s.all
    ensures var (s', ok) := Cancel(s, id);
            && Inv(s') && (ok <==> id in s.order)
            && s' == s.(all := s.all[id := s.all[id].(cb := None)], order := s'.order)
            && (forall x :: x in s'.order <==> x in s.order && x != id)
  {
    hide Before, LowerBound;
    if s.all[id].cb.Some? {
      var s1 := s.(all := s.all[id := s.all[id].(cb := None)]);
      SameKeys(s, s1);
      EraseSorted(s1, id);
    } else {
      assert s.all[id := s.all[id].(cb := None)] == s.all;
    }
  }

  /** Taken out, changed and put back: what else is in the set stays, and the order holds. */
  lemma MoveKeeps(s: State, id: nat, t: Timer)
    requires Inv(s) && id in s.order && id in s.all && t.cb.Some?
    ensures Found(s, id) && Known(Erase(s, id))
    ensures var s1 := Erase(s, id).(all := s.all[id := t]);
            && Erase(s, id) == s.(order := Erase(s, id).order) && Known(s1) && Inv(Insert(s1, id))
            && Insert(s1, id) == s.(all := s.all[id := t], order := Insert(s1, id).order)
            && (forall x :: x in Insert(s1, id).order <==> x in s.order)
            && (LowerBound(s1, KeyOf(s1, id), 0) == 0 <==> Insert(s1, id).order[0] == id)
  {
    hide Before, LowerBound;
    EraseSorted(s, id);
    var s1 := Erase(s, id).(all := s.all[id := t]);
    SameKeys(Erase(s, id), s1);
    InsertSorted(s1, id);
    FrontIsFirst(s1, id);
  }

  lemma RefreshKeeps(s: State, id: nat, now: nat)
    requires Inv(s) && id in s.all
    ensures var (s', ok) := Refresh(s, id, now);
            && Inv(s') && (ok <==> id in s.order)
            && (ok ==> s' == s.(all := s.all[id := s.all[id].(next := Deadline(now, s.all[id].ms))], order := s'.order))
            && (!ok ==> s' == s)
            && (forall x :: x in s'.order <==> x in s.order)
  {
    hide Before, LowerBound, Found, Deadline, Erase, Insert;
    var t := s.all[id];
    if t.cb.Some? {
      MoveKeeps(s, id, t.(next := Deadline(now, t.ms)));
    }
  }

  lemma ResetKeeps(s: State, id: nat, ms: nat, fromNow: bool, now: nat)
    requires Inv(s) && id in s.all
    ensures var (s', ok, front) := Reset(s, id, ms, fromNow, now);
            var t := s.all[id];
            var moved := id in s.order && (ms != t.ms || fromNow);
            && Inv(s') && s'.previous == s.previous
            && (ok <==> id in s.order || (ms == t.ms && !fromNow))
            && (!moved ==> s' == s && !front)
            && (moved ==> s'.all == s.all[id := t.(ms := ms, next := Deadline(Start(t, fromNow, now), ms))])
            && (moved ==> s'.tickled == (s.tickled || front) && (front <==> !s.tickled && s'.order[0] == id))
            && (forall x :: x in s'.order <==> x in s.order)
  {
    hide Before, LowerBound, Found, Deadline, Start, Erase, Insert;
    var t := s.all[id];
    if t.cb.Some? && (ms != t.ms || fromNow) {
      var t' := t.(ms := ms, next := Deadline(Start(t, fromNow, now), ms));
      MoveKeeps(s, id, t');
      SameKeys(Insert(Erase(s, id).(all := s.all[id := t']), id), Reset(s, id, ms, fromNow, now).0);
    }
  }

  lemma {:induction false} ModAdd(x: int, ms: nat)
    ensures (x % WORD + ms) % WORD == (x + ms) % WORD
  {
    var q := x / WORD;
    assert x == q * WORD + x % WORD;
    ModShift(x % WORD + ms, q);
  }

  lemma ModShift(y: int, q: int)
    ensures (y + q * WORD) % WORD == y % WORD
  {
    var a, b := y / WORD, (y + q * WORD) / WORD;
    assert y == a * WORD + y % WORD;
    assert y + q * WORD == b * WORD + (y + q * WORD) % WORD;
  }

  /**
    A timer reset from now is due its new period from now; reset otherwise it keeps the start of its period, so that
    only the length changes.
   */
  lemma ResetStarts(s: State, id: nat, ms: nat, fromNow: bool, now: nat)
    requires Inv(s) && id in s.order && id in s.all && (ms != s.all[id].ms || fromNow)
    ensures var t, t' := s.all[id], Reset(s, id, ms, fromNow, now).0.all;
            && id in t' && t'[id].ms == ms && t'[id].recurring == t.recurring && t'[id].cb == t.cb
            && t'[id].next == (if fromNow then now + ms else t.next - t.ms + ms) % WORD
            && (fromNow && now + ms < WORD ==> t'[id].next == now + ms)
            && (!fromNow && t.ms <= t.next && t.next - t.ms + ms < WORD ==> t'[id].next - ms == t.next - t.ms)
  {
    hide InvBut, Reset;
    ResetKeeps(s, id, ms, fromNow, now);
    ModAdd(s.all[id].next - s.all[id].ms, ms);
  }

  /**
    For a set that is not empty the time to wait is zero exactly if a pending timer is due; otherwise it ends exactly
    when the first of them is.
   */
  lemma NextTimerExact(s: State, now: nat)
    requires Inv(s)
    ensures var (s', wait) := GetNextTimer(s, now);
            && s' == s.(tickled := false)
            && (s.order == [] ==> wait == NEVER)
            && (s.order != [] ==>
                  && (wait == 0 <==> exists id :: id in s.order && id in s.all && s.all[id].next <= now)
                  && (wait > 0 ==>
                        && (exists id :: id in s.order && id in s.all && s.all[id].next == now + wait)
                        && (forall id :: id in s.order && id in s.all ==> s.all[id].next >= now + wait)))
  {
    hide Before;
    if s.order != [] {
      NextsAscend(s);
      assert s.order[0] in s.order;
      forall id | id in s.order && id in s.all ensures s.all[id].next >= s.all[s.order[0]].next {
        var i :| 0 <= i < |s.order| && s.order[i] == id;
      }
    }
  }

  lemma NextKeeps(s: State, now: nat)
    requires Inv(s)
    ensures Inv(GetNextTimer(s, now).0)
  {
    SameKeys(s, s.(tickled := false));
  }

  // ----- expiry against its definition

  /**
    Going back counts as a rollover when it is by more than an hour; in the first hour of the clock, where the
    subtraction wraps, when it is at all.
   */
  lemma RolloverExactly(previous: nat, now: nat)
    requires previous < WORD
    ensures Rollover(previous, now) <==> if previous >= 3_600_000 then now + 3_600_000 < previous else now < previous
  {
    if previous < 3_600_000 {
      assert (previous - HOUR) % WORD == previous - HOUR + WORD;
    }
  }

  predicate Due(s: State, now: nat, id: nat)
    requires id in s.all
  {
    Rollover(s.previous, now) || s.all[id].next <= now
  }

  /** The pending timers that are due, in set order. */
  function DueIds(s: State, now: nat, ids: seq<nat>): seq<nat>
    requires forall i :: 0 <= i < |ids| ==> ids[i] in s.all
  {
    if ids == [] then [] else
      (if Due(s, now, ids[0]) then [ids[0]] else []) + DueIds(s, now, ids[1..])
  }

  lemma {:induction false} DuePrefix(s: State, now: nat, ids: seq<nat>, end: nat)
    requires forall i :: 0 <= i < |ids| ==> ids[i] in s.all
    requires end <= |ids|
    requires forall i :: 0 <= i < |ids| ==> (Due(s, now, ids[i]) <==> i < end)
    ensures DueIds(s, now, ids) == ids[..end]
  {
    if ids != [] {
      assert Due(s, now, ids[0]) <==> 0 < end;
      var end' := if end == 0 then 0 else end - 1;
      forall i | 0 <= i < |ids[1..]| ensures Due(s, now, ids[1..][i]) <==> i < end' {
        assert ids[1..][i] == ids[i + 1];
      }
      DuePrefix(s, now, ids[1..], end');
    }
  }

  lemma {:induction false} SkipEqualSplits(s: State, now: nat, i: nat)
    requires Known(s) && Sorted(s) && i <= |s.order|
    requires forall j :: i <= j < |s.order| ==> s.all[s.order[j]].next >= now
    ensures var e := SkipEqual(s, now, i);
            && (forall j :: i <= j < e ==> s.all[s.order[j]].next == now)
            && (forall j :: e <= j < |s.order| ==> s.all[s.order[j]].next > now)
    decreases |s.order| - i
  {
    if i < |s.order| {
      if s.all[s.order[i]].next == now {
        SkipEqualSplits(s, now, i + 1);
      } else {
        forall j | i < j < |s.order| ensures s.all[s.order[j]].next > now {
          assert Before(KeyOf(s, s.order[i]), KeyOf(s, s.order[j]));
        }
      }
    }
  }

  /** The cut is exact whatever address the probe timer happens to have. */
  lemma ExpiredEndExact(s: State, now: nat, probe: nat, rollover: bool)
    requires Known(s) && Sorted(s)
    ensures var e := ExpiredEnd(s, now, probe, rollover);
            forall i :: 0 <= i < |s.order| ==> (rollover || s.all[s.order[i]].next <= now <==> i < e)
  {
    if !rollover {
      LowerBoundSplits(s, Key(now, probe), 0);
      SkipEqualSplits(s, now, LowerBound(s, Key(now, probe), 0));
    }
  }

  /** What settling does to each timer. */
  function Settled(t: Timer, now: nat): Timer
  {
    if t.recurring then t.(next := Deadline(now, t.ms)) else t.(cb := None)
  }

  lemma {:induction false} SettleAllEffect(s: State, ids: seq<nat>, now: nat)
    requires InvBut(s, ids) && Distinct(ids)
    ensures var s' := SettleAll(s, ids, now);
            && Inv(s') && s'.all.Keys == s.all.Keys && s'.previous == s.previous && s'.tickled == s.tickled
            && (forall id :: id in s.all ==> s'.all[id] == if id in ids then Settled(s.all[id], now) else s.all[id])
    decreases |ids|
  {
    if ids != [] {
      SettleKeeps(s, ids, now);
      SettleAllEffect(Settle(s, ids[0], now), ids[1..], now);
      assert ids == [ids[0]] + ids[1..];
    }
  }

  /**
    Expiry emits, in deadline order, the callbacks of exactly the due timers; they are settled, and nothing
    else changes.
   */
  lemma ListExpiredExact(s: State, now: nat, probe: nat)
    requires Inv(s)
    ensures var (s', cbs) := ListExpired(s, now, probe);
            var due := DueIds(s, now, s.order);
            && Inv(s') && s'.all.Keys == s.all.Keys && s'.tickled == s.tickled
            && s'.previous == (if s.order == [] then s.previous else now)
            && due <= s.order
            && (forall id :: id in due <==> id in s.order && Due(s, now, id))
            && |cbs| == |due| && (forall i :: 0 <= i < |due| ==> s.all[due[i]].cb == Some(cbs[i]))
            && (forall i, j :: 0 <= i < j < |due| ==>
                  || s.all[due[i]].next < s.all[due[j]].next
                  || (s.all[due[i]].next == s.all[due[j]].next && due[i] < due[j]))
            && (forall id :: id in s.all ==>
                  s'.all[id] == if id in s.order && Due(s, now, id) then Settled(s.all[id], now) else s.all[id])
  {
    hide LowerBound, ExpiredEnd, SettleAll, Before, Deadline, DueIds;
    if s.order != [] {
      var s1 := s.(previous := now);
      SameKeys(s, s1);
      var e := ExpiredEnd(s1, now, probe, Rollover(s.previous, now));
      ExpiredEndExact(s1, now, probe, Rollover(s.previous, now));
      DuePrefix(s, now, s.order, e);
      DueMembers(s, now, e);
      TakeOut(s1, e);
      NextsAscend(s);
      if !Rollover(s.previous, now) && s.all[s.order[0]].next > now {
        assert !Due(s, now, s.order[0]);
        assert e == 0;
        SettleAllEffect(s1.(order := s.order[e..]), [], now);
      } else {
        SettleAllEffect(s1.(order := s.order[e..]), s.order[..e], now);
      }
    } else {
      DuePrefix(s, now, s.order, 0);
    }
  }

  lemma NextsAscend(s: State)
    requires Known(s) && Sorted(s)
    ensures forall i, j :: 0 <= i < j < |s.order| ==>
              || s.all[s.order[i]].next < s.all[s.order[j]].next
              || (s.all[s.order[i]].next == s.all[s.order[j]].next && s.order[i] < s.order[j])
  {
    forall i, j | 0 <= i < j < |s.order|
      ensures || s.all[s.order[i]].next < s.all[s.order[j]].next
              || (s.all[s.order[i]].next == s.all[s.order[j]].next && s.order[i] < s.order[j])
    {
      assert Before(KeyOf(s, s.order[i]), KeyOf(s, s.order[j]));
    }
  }

  lemma DueMembers(s: State, now: nat, e: nat)
    requires Known(s) && e <= |s.order|
    requires forall i :: 0 <= i < |s.order| ==> (Due(s, now, s.order[i]) <==> i < e)
    ensures forall id :: id in s.order[..e] <==> id in s.order && Due(s, now, id)
  {
    forall id | id in s.order && Due(s, now, id) ensures id in s.order[..e] {
      var i :| 0 <= i < |s.order| && s.order[i] == id;
      assert s.order[..e][i] == id;
    }
  }
}
