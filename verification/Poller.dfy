/** One thread polling for timers while others change the set: no wake-up is lost. */
module Poller {
  import opened Options
  import opened Tasks
  import opened Words
  import opened Timers

  // ----- the argument of the wait

  const MAX_TIMEOUT := 5000
  const HALF_INT := 0x8000_0000
  const FULL_INT := 0x1_0000_0000

  /** Conversion of a 64-bit word to a 32-bit signed int: the low half, read as signed. */
  function ToInt(t: nat): int
  {
    var low := t % FULL_INT;
    if low < HALF_INT then low else low - FULL_INT
  }

  /** What the timeout variable holds when the wait is called; the comparison is made on the converted value. */
  function Capped(timeout: nat): nat
  {
    if timeout == NEVER then MAX_TIMEOUT else if ToInt(timeout) > MAX_TIMEOUT then MAX_TIMEOUT else timeout
  }

  /** What the wait is called with, in milliseconds; a negative value waits without limit. */
  function WaitArgument(timeout: nat): int
  {
    ToInt(Capped(timeout))
  }

  /** The wait is bounded, by the cap and by the deadline, exactly when the timeout's low half is not negative. */
  lemma WaitIsBoundedExactly(timeout: nat)
    ensures 0 <= WaitArgument(timeout) <= MAX_TIMEOUT && WaitArgument(timeout) <= timeout
       <==> timeout == NEVER || timeout % FULL_INT < HALF_INT
    ensures timeout != NEVER && timeout % FULL_INT >= HALF_INT ==> WaitArgument(timeout) < 0
  {}

  /** How long the wait is: the low half of the timeout, at most the cap, or without limit if that half is negative. */
  lemma WaitArgumentExact(timeout: nat)
    ensures timeout == NEVER ==> WaitArgument(timeout) == 5000
    ensures timeout != NEVER ==>
              var low := timeout % 0x1_0000_0000;
              if low >= 0x8000_0000 then WaitArgument(timeout) < 0
              else WaitArgument(timeout) == if low < 5000 then low else 5000
  {}

  /** Capping again, as the loop does after an interruption, changes nothing. */
  lemma CappedStays(timeout: nat)
    ensures Capped(Capped(timeout)) == Capped(timeout)
  {}

  // ----- the poller and the timers

  /**
    The polling thread: running tasks, gone idle, about to wait, waiting, or back from the wait.  From when it asked
    for the next deadline: the timeout variable and the time it was computed; while it waits: the time the wait ends,
    if it does.
   */
  datatype Mode =
    | Busy
    | Idle
    | Asked(timeout: nat, polled: nat)
    | Waiting(timeout: nat, polled: nat, until: Option<nat>)
    | Awake

  /**
    The set, the clock, the poller, the bytes in the wake pipe, and the callers that put a timer in front and
    have yet to write to the pipe.
   */
  datatype World = World(t: State, clock: nat, mode: Mode, pipe: nat, inFlight: nat)

  const START := World(State(map[], [], false, 0), 0, Busy, 0, 0)

  datatype Action =
    | Tick(d: nat)
    | Add(id: nat, ms: nat, cb: Callback, recurring: bool)
    | CancelTimer(id: nat)
    | RefreshTimer(id: nat)
    | ResetTimer(id: nat, ms: nat, fromNow: bool)
    | ExtraNext                 // somebody else asks for the next deadline, which clears the wake flag
    | Tickle                    // a caller that put a timer in front gets to the pipe
    | GoIdle
    | Ask                       // the poller asks for the next deadline
    | Block                     // it starts waiting for it
    | Interrupt                 // a signal ends the wait, and it is called again with the same timeout
    | Return                    // the wait ends
    | Expire(probe: nat)
    | Drain
    | Leave

  /** A wait called now: until when it lasts. */
  function Wait(clock: nat, polled: nat, timeout: nat): Mode
  {
    var arg := ToInt(timeout);
    Waiting(timeout, polled, if arg < 0 then None else Some(clock + arg))
  }

  function Step(w: World, a: Action): World
    requires Inv(w.t)
  {
    match a
    case Tick(d) => w.(clock := w.clock + d)
    case Add(id, ms, cb, recurring) =>
      if id in w.t.all then w else
        var (t', front) := AddTimer(w.t, id, ms, cb, recurring, w.clock);
        Announce(w.(t := t'), front)
    case CancelTimer(id) => if id in w.t.all then w.(t := Cancel(w.t, id).0) else w
    case RefreshTimer(id) => if id in w.t.all then w.(t := Refresh(w.t, id, w.clock).0) else w
    case ResetTimer(id, ms, fromNow) =>
      if id !in w.t.all then w else
        var (t', _, front) := Reset(w.t, id, ms, fromNow, w.clock);
        Announce(w.(t := t'), front)
    case ExtraNext => w.(t := GetNextTimer(w.t, w.clock).0)
    case Tickle =>
      if w.inFlight == 0 then w
      else w.(inFlight := w.inFlight - 1, pipe := if w.mode == Busy then w.pipe else w.pipe + 1)
    case GoIdle => if w.mode == Busy then w.(mode := Idle) else w
    case Ask =>
      if w.mode != Idle then w else
        var (t', timeout) := GetNextTimer(w.t, w.clock);
        w.(t := t', mode := Asked(timeout, w.clock))
    case Block => if w.mode.Asked? then w.(mode := Wait(w.clock, w.mode.polled, Capped(w.mode.timeout))) else w
    case Interrupt =>
      if w.mode.Waiting? then w.(mode := Wait(w.clock, w.mode.polled, Capped(w.mode.timeout))) else w
    case Return => if w.mode.Waiting? then w.(mode := Awake) else w
    case Expire(probe) => if w.mode == Awake then w.(t := ListExpired(w.t, w.clock, probe).0) else w
    case Drain => if w.mode == Awake then w.(pipe := 0) else w
    case Leave => if w.mode == Awake then w.(mode := Busy) else w
  }

  function Announce(w: World, front: bool): World
  {
    if front then w.(inFlight := w.inFlight + 1) else w
  }

  /** A wake-up is on its way to the poller. */
  predicate Called(w: World)
  {
    w.pipe > 0 || w.inFlight > 0
  }

  /** The wait goes on. */
  predicate Asleep(w: World)
  {
    w.mode.Waiting? && (w.mode.until.Some? ==> w.clock < w.mode.until.value)
  }

  /** No timer is due before a time; before no time at all only if there is none. */
  predicate NoneBefore(t: State, until: Option<nat>)
    requires Known(t)
  {
    match until
    case None => t.order == []
    case Some(u) => forall i :: 0 <= i < |t.order| ==> t.all[t.order[i]].next >= u
  }

  /** While the poller waits, no timer is due before the wait ends, or a wake-up is on its way. */
  predicate NoLostWake(w: World)
    requires Known(w.t)
  {
    Asleep(w) ==> NoneBefore(w.t, w.mode.until) || Called(w)
  }

  /** The set is in order, and once the poller has asked the wake flag is set only while a wake-up is on its way. */
  predicate FlagOk(w: World)
  {
    Inv(w.t) && ((w.mode.Asked? || w.mode.Waiting?) && w.t.tickled ==> Called(w))
  }

  // ----- what each step does to it

  /** A wait called now with this timeout passes no timer: it is none at all, or ends before the first is due. */
  predicate EndsInTime(w: World, timeout: nat)
    requires Known(w.t)
  {
    var arg := WaitArgument(timeout);
    arg == 0 || NoneBefore(w.t, if arg < 0 then None else Some(w.clock + arg))
  }

  /**
    Steps that keep the poller from sleeping through a timer.  Refreshing announces nothing; and a wait is called, or
    called again after an interruption, with the timeout there was when the poller asked.
   */
  predicate Safe(w: World, a: Action)
    requires Inv(w.t)
  {
    match a
    case RefreshTimer(id) =>
      Asleep(w) && !Called(w) && id in w.t.order && id in w.t.all ==>
        w.mode.until.Some? && Deadline(w.clock, w.t.all[id].ms) >= w.mode.until.value
    case Block => w.mode.Asked? && !Called(w) ==> EndsInTime(w, w.mode.timeout)
    case Interrupt => w.mode.Waiting? && !Called(w) ==> EndsInTime(w, w.mode.timeout)
    case _ => true
  }

  /** Every step keeps the flag; given that no wake-up was lost, one is lost exactly by a step that is not safe. */
  lemma StepExact(w: World, a: Action)
    requires FlagOk(w) && NoLostWake(w)
    ensures FlagOk(Step(w, a)) && (NoLostWake(Step(w, a)) <==> Safe(w, a))
  {
    hide InvBut, AddTimer, Cancel, Refresh, Reset, ListExpired, Deadline, Start, ToInt;
    match a
    case Tick(d) =>
    case Add(id, ms, cb, recurring) =>
      if id !in w.t.all {
        AddTimerKeeps(w.t, id, ms, cb, recurring, w.clock);
        AddWakes(w, Step(w, a), id);
      }
    case CancelTimer(id) => CancelStep(w, id);
    case RefreshTimer(id) => RefreshStep(w, id);
    case ResetTimer(id, ms, fromNow) => ResetStep(w, id, ms, fromNow);
    case ExtraNext => NextKeeps(w.t, w.clock);
    case Tickle =>
    case GoIdle =>
    case Ask => NextKeeps(w.t, w.clock);
    case Block =>
    case Interrupt =>
    case Return =>
    case Expire(probe) => ListExpiredExact(w.t, w.clock, probe);
    case Drain =>
    case Leave =>
  }

  lemma CancelStep(w: World, id: nat)
    requires FlagOk(w) && NoLostWake(w)
    ensures FlagOk(Step(w, CancelTimer(id))) && NoLostWake(Step(w, CancelTimer(id)))
  {
    hide InvBut, Cancel;
    if id in w.t.all {
      CancelKeeps(w.t, id);
      var w' := Step(w, CancelTimer(id));
      forall i | 0 <= i < |w'.t.order| ensures w'.t.order[i] in w.t.order {
        assert w'.t.order[i] in w'.t.order;
      }
      assert w'.t.order != [] ==> w'.t.order[0] in w.t.order;
    }
  }

  lemma RefreshStep(w: World, id: nat)
    requires FlagOk(w) && NoLostWake(w)
    ensures var a := RefreshTimer(id); FlagOk(Step(w, a)) && (NoLostWake(Step(w, a)) <==> Safe(w, a))
  {
    hide InvBut, Refresh, Deadline;
    if id in w.t.all {
      RefreshKeeps(w.t, id, w.clock);
      var w' := Step(w, RefreshTimer(id));
      assert forall i :: 0 <= i < |w'.t.order| ==> w'.t.order[i] in w.t.order;
      if id in w.t.order {
        var i :| 0 <= i < |w'.t.order| && w'.t.order[i] == id;
      }
    }
  }

  lemma ResetStep(w: World, id: nat, ms: nat, fromNow: bool)
    requires FlagOk(w) && NoLostWake(w)
    ensures var a := ResetTimer(id, ms, fromNow); FlagOk(Step(w, a)) && NoLostWake(Step(w, a))
  {
    hide InvBut, Reset, Deadline, Start;
    if id in w.t.all {
      ResetKeeps(w.t, id, ms, fromNow, w.clock);
      if id in w.t.order && (ms != w.t.all[id].ms || fromNow) {
        AddWakes(w, Step(w, ResetTimer(id, ms, fromNow)), id);
      }
    }
  }

  /** Putting a timer in announces it when it is the first, unless an announcement is already out. */
  lemma AddWakes(w: World, w': World, id: nat)
    requires FlagOk(w) && NoLostWake(w) && Inv(w'.t) && id in w'.t.order
    requires w'.clock == w.clock && w'.mode == w.mode && w'.pipe == w.pipe
    requires forall x :: x in w'.t.order ==> x == id || (x in w.t.order && w'.t.all[x] == w.t.all[x])
    requires var front := !w.t.tickled && w'.t.order[0] == id;
             w'.t.tickled == (w.t.tickled || front) && w'.inFlight == if front then w.inFlight + 1 else w.inFlight
    ensures FlagOk(w') && NoLostWake(w')
  {
    if Asleep(w') && !Called(w') {
      NextsAscend(w'.t);
      var first := w'.t.order[0];
      assert first != id;
      assert w'.t.all[first] == w.t.all[first] && first in w.t.order;
    }
  }

  // ----- every run

  ghost function Run(w: World, acts: seq<Action>): World
    decreases |acts|
  {
    if acts == [] || !Inv(w.t) then w else Run(Step(w, acts[0]), acts[1..])
  }

  /** No wake-up is lost at any point of the run. */
  ghost predicate NeverLost(w: World, acts: seq<Action>)
    decreases |acts|
  {
    Inv(w.t) && NoLostWake(w) && (acts == [] || NeverLost(Step(w, acts[0]), acts[1..]))
  }

  ghost predicate AllSafe(w: World, acts: seq<Action>)
    decreases |acts|
  {
    acts == [] || (Inv(w.t) && Safe(w, acts[0]) && AllSafe(Step(w, acts[0]), acts[1..]))
  }

  lemma {:induction false} LostExactly(w: World, acts: seq<Action>)
    requires FlagOk(w) && NoLostWake(w)
    ensures NeverLost(w, acts) <==> AllSafe(w, acts)
    decreases |acts|
  {
    hide Step, NoLostWake, Safe, Inv;
    if acts != [] {
      StepExact(w, acts[0]);
      if Safe(w, acts[0]) {
        LostExactly(Step(w, acts[0]), acts[1..]);
      }
    }
  }

  /** No wake-up is ever lost in a run exactly if every step of it is safe, whatever else happens in between. */
  lemma NoWakeIsLost(acts: seq<Action>)
    ensures NeverLost(START, acts) <==> AllSafe(START, acts)
  {
    LostExactly(START, acts);
  }

  // ----- runs without surprises are safe

  /** Deadlines fit 64 bits, timeouts a signed 32-bit half, and waits are called and interrupted when asked for. */
  predicate Plain(w: World, a: Action)
    requires Inv(w.t)
  {
    match a
    case Add(_, ms, _, _) => w.clock + ms < WORD
    case RefreshTimer(id) => id in w.t.all ==> w.clock + w.t.all[id].ms < WORD
    case ResetTimer(id, ms, _) => w.clock + ms < WORD
    case Expire(_) => forall id :: id in w.t.all && w.t.all[id].recurring ==> w.clock + w.t.all[id].ms < WORD
    case Tick(d) => w.clock + d < WORD
    case Ask =>
      var timeout := GetNextTimer(w.t, w.clock).1;
      timeout == NEVER || timeout % FULL_INT < HALF_INT
    case Block => w.mode.Asked? ==> w.clock == w.mode.polled
    case Interrupt => w.mode.Waiting? ==> w.clock == w.mode.polled
    case _ => true
  }

  /** A pending timer was started in the past, and a wait ends when it was first called to. */
  predicate Started(w: World)
  {
    && w.clock < WORD
    && (forall id :: id in w.t.order && id in w.t.all ==>
          w.t.all[id].ms <= w.t.all[id].next <= w.clock + w.t.all[id].ms && w.t.all[id].next < WORD)
    && (w.mode.Waiting? ==>
          Capped(w.mode.timeout) == w.mode.timeout && w.mode == Wait(w.mode.polled, w.mode.polled, w.mode.timeout))
  }

  lemma StartedKept(w: World, a: Action)
    requires Inv(w.t) && Started(w) && Plain(w, a)
    ensures Started(Step(w, a))
  {
    hide InvBut, AddTimer, Cancel, Refresh, Reset, ListExpired, Deadline, Start, ToInt, Capped;
    match a
    case Add(id, ms, cb, recurring) =>
      if id !in w.t.all {
        AddTimerKeeps(w.t, id, ms, cb, recurring, w.clock);
      }
    case CancelTimer(id) =>
      if id in w.t.all {
        CancelKeeps(w.t, id);
      }
    case RefreshTimer(id) =>
      if id in w.t.all {
        RefreshKeeps(w.t, id, w.clock);
      }
    case ResetTimer(id, ms, fromNow) =>
      if id in w.t.all {
        ResetKeeps(w.t, id, ms, fromNow, w.clock);
        StartBounds(w, id, fromNow);
      }
    case Expire(probe) => ExpireStarted(w, probe);
    case Block => BlockStarted(w);
    case _ =>
  }

  lemma BlockStarted(w: World)
    requires Inv(w.t) && Started(w) && Plain(w, Block)
    ensures Started(Step(w, Block))
  {
    hide ToInt, Capped, InvBut;
    if w.mode.Asked? {
      CappedStays(w.mode.timeout);
    }
  }

  lemma StartBounds(w: World, id: nat, fromNow: bool)
    requires Inv(w.t) && Started(w) && id in w.t.all
    ensures id in w.t.order ==> Timers.Start(w.t.all[id], fromNow, w.clock) <= w.clock
  {}

  lemma ExpireStarted(w: World, probe: nat)
    requires Inv(w.t) && Started(w) && Plain(w, Expire(probe))
    ensures Started(w.(t := ListExpired(w.t, w.clock, probe).0))
  {
    hide ListExpired, DueIds, Sorted, Rollover, ToInt, Capped;
    ListExpiredExact(w.t, w.clock, probe);
    var t' := ListExpired(w.t, w.clock, probe).0;
    forall id | id in t'.order && id in t'.all
      ensures t'.all[id].ms <= t'.all[id].next <= w.clock + t'.all[id].ms && t'.all[id].next < WORD
    {
      assert t'.all[id].cb.Some?;
      assert w.t.all[id].cb.Some? && id in w.t.order;
    }
  }

  /** A poller about to wait, as if it had started at once. */
  function AsIf(w: World): World
  {
    if w.mode.Asked? then w.(mode := Wait(w.mode.polled, w.mode.polled, Capped(w.mode.timeout))) else w
  }

  /** As long as no time has passed since the poller asked, starting to wait would lose nothing. */
  predicate AskedOk(w: World)
    requires Known(w.t)
  {
    w.mode.Asked? ==> w.mode.polled <= w.clock && (w.clock == w.mode.polled ==> NoLostWake(AsIf(w)))
  }

  lemma PlainIsSafe(w: World, a: Action)
    requires FlagOk(w) && NoLostWake(w) && Started(w) && AskedOk(w) && Plain(w, a)
    ensures Safe(w, a)
  {
    hide InvBut, ToInt, Capped;
    if a.RefreshTimer? && a.id in w.t.order {
      var i :| 0 <= i < |w.t.order| && w.t.order[i] == a.id;
    } else if a.Block? {
      StepExact(w, a);
    }
  }

  lemma AskStarts(w: World)
    requires Inv(w.t) && Plain(w, Ask) && w.mode == Idle
    ensures AskedOk(Step(w, Ask))
  {
    hide ToInt, Sorted;
    NextKeeps(w.t, w.clock);
    NextsAscend(w.t);
    WaitIsBoundedExactly(GetNextTimer(w.t, w.clock).1);
  }

  /** Steps of others do the same to a poller about to wait as to one that has started. */
  lemma AsIfSteps(w: World, a: Action)
    requires Inv(w.t) && w.mode.Asked?
    requires a.Add? || a.CancelTimer? || a.RefreshTimer? || a.ResetTimer? || a.ExtraNext? || a.Tickle?
    ensures Step(AsIf(w), a) == AsIf(Step(w, a)) && Step(w, a).mode == w.mode && Step(w, a).clock == w.clock
  {
    hide InvBut, AddTimer, Cancel, Refresh, Reset, GetNextTimer, ToInt, Capped;
  }

  lemma AsIfStarted(w: World)
    requires w.mode.Asked?
    ensures Started(w) ==> Started(AsIf(w))
    ensures FlagOk(w) ==> FlagOk(AsIf(w))
    ensures Known(w.t) ==> AskedOk(AsIf(w))
  {
    hide InvBut, ToInt, Capped;
    CappedStays(w.mode.timeout);
  }

  lemma InOrderIsKnown(t: State)
    requires Inv(t)
    ensures Known(t)
  {}

  lemma AskedKept(w: World, a: Action)
    requires FlagOk(w) && Started(w) && AskedOk(w) && Plain(w, a)
    ensures Known(Step(w, a).t) && AskedOk(Step(w, a))
  {
    hide InvBut, AddTimer, Cancel, Refresh, Reset, ListExpired, NoLostWake, Safe, Started;
    StepFlag(w, a);
    InOrderIsKnown(Step(w, a).t);
    if w.mode == Idle && a.Ask? {
      AskStarts(w);
    } else if w.mode.Asked? && w.clock == w.mode.polled {
      if a.Add? || a.CancelTimer? || a.RefreshTimer? || a.ResetTimer? || a.ExtraNext? || a.Tickle? {
        AsIfSteps(w, a);
        AsIfStarted(w);
        PlainAsIf(w, a);
        PlainIsSafe(AsIf(w), a);
        StepExact(AsIf(w), a);
      }
    }
  }

  lemma PlainAsIf(w: World, a: Action)
    requires Inv(w.t) && Plain(w, a) && !a.Block? && !a.Interrupt?
    ensures Plain(AsIf(w), a)
  {
    hide InvBut, GetNextTimer, ToInt, Capped;
  }

  /** Every step keeps the flag, lost wake-ups or not. */
  lemma StepFlag(w: World, a: Action)
    requires FlagOk(w)
    ensures FlagOk(Step(w, a))
  {
    hide InvBut, AddTimer, Cancel, Refresh, Reset, ListExpired, Deadline, Start, ToInt;
    match a
    case Add(id, ms, cb, recurring) =>
      if id !in w.t.all {
        AddTimerKeeps(w.t, id, ms, cb, recurring, w.clock);
      }
    case CancelTimer(id) =>
      if id in w.t.all {
        CancelKeeps(w.t, id);
      }
    case RefreshTimer(id) =>
      if id in w.t.all {
        RefreshKeeps(w.t, id, w.clock);
      }
    case ResetTimer(id, ms, fromNow) =>
      if id in w.t.all {
        ResetKeeps(w.t, id, ms, fromNow, w.clock);
      }
    case ExtraNext => NextKeeps(w.t, w.clock);
    case Ask => NextKeeps(w.t, w.clock);
    case Expire(probe) => ListExpiredExact(w.t, w.clock, probe);
    case _ =>
  }

  ghost predicate AllPlain(w: World, acts: seq<Action>)
    decreases |acts|
  {
    acts == [] || (Inv(w.t) && Plain(w, acts[0]) && AllPlain(Step(w, acts[0]), acts[1..]))
  }

  lemma {:induction false} PlainRunsAreSafe(w: World, acts: seq<Action>)
    requires FlagOk(w) && NoLostWake(w) && Started(w) && AskedOk(w) && AllPlain(w, acts)
    ensures AllSafe(w, acts)
    decreases |acts|
  {
    hide Step, Started, Plain, Safe, Inv, NoLostWake, AskedOk;
    if acts != [] {
      PlainIsSafe(w, acts[0]);
      StartedKept(w, acts[0]);
      AskedKept(w, acts[0]);
      StepExact(w, acts[0]);
      PlainRunsAreSafe(Step(w, acts[0]), acts[1..]);
    }
  }

  /** From the start, no plain run loses a wake-up. */
  lemma PlainRunsLoseNothing(acts: seq<Action>)
    requires AllPlain(START, acts)
    ensures NeverLost(START, acts)
  {
    PlainRunsAreSafe(START, acts);
    LostExactly(START, acts);
  }

  // ----- when a wait ends

  /** A step of somebody else that takes no time. */
  predicate ByOthers(a: Action)
  {
    a.Add? || a.CancelTimer? || a.RefreshTimer? || a.ResetTimer? || a.ExtraNext? || a.Tickle?
  }

  lemma OthersKeep(w: World, a: Action)
    requires Inv(w.t) && ByOthers(a)
    ensures Inv(Step(w, a).t) && Step(w, a).mode == w.mode && Step(w, a).clock == w.clock
  {
    hide InvBut, AddTimer, Cancel, Refresh, Reset;
    match a
    case Add(id, ms, cb, recurring) =>
      if id !in w.t.all {
        AddTimerKeeps(w.t, id, ms, cb, recurring, w.clock);
      }
    case CancelTimer(id) =>
      if id in w.t.all {
        CancelKeeps(w.t, id);
      }
    case RefreshTimer(id) =>
      if id in w.t.all {
        RefreshKeeps(w.t, id, w.clock);
      }
    case ResetTimer(id, ms, fromNow) =>
      if id in w.t.all {
        ResetKeeps(w.t, id, ms, fromNow, w.clock);
      }
    case ExtraNext => NextKeeps(w.t, w.clock);
    case Tickle =>
  }

  lemma {:induction false} MeanwhileKeep(w: World, mid: seq<Action>)
    requires Inv(w.t) && forall i :: 0 <= i < |mid| ==> ByOthers(mid[i])
    ensures Inv(Run(w, mid).t) && Run(w, mid).mode == w.mode && Run(w, mid).clock == w.clock
    decreases |mid|
  {
    hide Inv, Step;
    if mid != [] {
      OthersKeep(w, mid[0]);
      MeanwhileKeep(Step(w, mid[0]), mid[1..]);
    }
  }

  /** When a wait for a timer due at `d`, or for none, ends that is called at time `clock`. */
  predicate EndsRight(clock: nat, d: Option<nat>, until: Option<nat>)
  {
    match d
    case None => until == Some(clock + 5000)
    case Some(d) =>
      && (d <= clock ==> until == Some(clock))
      && (clock < d <= clock + 5000 ==> until == Some(d))
      && (d > clock + 5000 && d - clock < 0x8000_0000 ==> until == Some(clock + 5000))
      && (until == Some(d) <==> clock <= d <= clock + 5000)
  }

  lemma AskedFor(w: World, id: nat)
    requires Inv(w.t) && w.mode == Idle
    requires w.t.order != [] ==>
               id in w.t.order && id in w.t.all
               && forall x :: x in w.t.order && x in w.t.all ==> w.t.all[x].next >= w.t.all[id].next
    ensures var w1 := Step(w, Ask);
            && Inv(w1.t) && w1.clock == w.clock && w1.mode.Asked? && w1.mode.polled == w.clock
            && (w.t.order == [] ==> w1.mode.timeout == NEVER)
            && (w.t.order != [] ==>
                  w1.mode.timeout == if w.t.all[id].next <= w.clock then 0 else w.t.all[id].next - w.clock)
  {
    hide InvBut, GetNextTimer;
    NextKeeps(w.t, w.clock);
    NextTimerExact(w.t, w.clock);
  }

  /**
    A wait that starts when it was asked for ends exactly when the first timer is due, if that is within the cap, and
    at the cap otherwise; what others do between asking and waiting makes no difference.
   */
  lemma WaitEndsAtFirst(w: World, mid: seq<Action>, id: nat)
    requires Inv(w.t) && w.mode == Idle && forall i :: 0 <= i < |mid| ==> ByOthers(mid[i])
    requires w.t.order != [] ==>
               id in w.t.order && id in w.t.all
               && forall x :: x in w.t.order && x in w.t.all ==> w.t.all[x].next >= w.t.all[id].next
    ensures var w' := Run(w, [Ask] + (mid + [Block]));
            && w'.mode.Waiting? && w'.clock == w.clock
            && EndsRight(w.clock, if w.t.order == [] then None else Some(w.t.all[id].next), w'.mode.until)
  {
    hide Inv, ToInt, Capped, Step, EndsRight;
    AskedFor(w, id);
    var w1 := Step(w, Ask);
    Unroll(w, Ask, mid + [Block]);
    MeanwhileKeep(w1, mid);
    RunConcat(w1, mid, [Block]);
    var w2 := Run(w1, mid);
    assert [Block] + [] == [Block];
    Unroll(w2, Block, []);
    Blocks(w2);
    RightLength(w.clock, if w.t.order == [] then None else Some(w.t.all[id].next), w1.mode.timeout);
  }

  lemma RightLength(clock: nat, d: Option<nat>, timeout: nat)
    requires match d
             case None => timeout == NEVER
             case Some(d) => timeout == if d <= clock then 0 else d - clock
    ensures var arg := WaitArgument(timeout); EndsRight(clock, d, if arg < 0 then None else Some(clock + arg))
  {
    hide ToInt, Capped, WaitArgument;
    WaitArgumentExact(timeout);
  }

  lemma Blocks(w: World)
    requires Inv(w.t) && w.mode.Asked?
    ensures var w', arg := Step(w, Block), WaitArgument(w.mode.timeout);
            && w'.mode.Waiting? && w'.clock == w.clock && Inv(w'.t)
            && w'.mode.until == if arg < 0 then None else Some(w.clock + arg)
  {
    hide Inv, ToInt, Capped;
  }

  // ----- the poller's round

  /** What takes the poller one place further: from its tasks to idling, asking, waiting, waking, and back. */
  predicate Advances(m: Mode, a: Action)
  {
    match m
    case Busy => a.GoIdle?
    case Idle => a.Ask?
    case Asked(_, _) => a.Block?
    case Waiting(_, _, _) => a.Return?
    case Awake => a.Leave?
  }

  predicate Follows(m: Mode, m': Mode)
  {
    match m
    case Busy => m'.Idle?
    case Idle => m'.Asked?
    case Asked(_, _) => m'.Waiting?
    case Waiting(_, _, _) => m'.Awake?
    case Awake => m'.Busy?
  }

  /** For every step: the poller goes one place round exactly by the step that belongs to its place, and never back. */
  lemma RoundExactly(w: World, a: Action)
    requires Inv(w.t)
    ensures var m' := Step(w, a).mode;
            if Advances(w.mode, a) then Follows(w.mode, m')
            else m' == w.mode || (a.Interrupt? && w.mode.Waiting? && m'.Waiting? && m'.polled == w.mode.polled)
  {
    hide InvBut, AddTimer, Cancel, Refresh, Reset, ListExpired, ToInt, Capped;
  }

  // ----- the wake pipe

  /** The step writes a byte to the pipe. */
  predicate Writes(w: World, a: Action)
  {
    a.Tickle? && w.inFlight > 0 && w.mode != Busy
  }

  ghost predicate Undrained(w: World, acts: seq<Action>)
    decreases |acts|
  {
    acts == [] || !Inv(w.t) || (!(acts[0].Drain? && w.mode == Awake) && Undrained(Step(w, acts[0]), acts[1..]))
  }

  /** Somebody found the poller not busy and wrote to the pipe, and it has not been drained since. */
  ghost predicate WrittenSince(w: World, acts: seq<Action>)
    decreases |acts|
  {
    acts != [] && Inv(w.t) &&
    ((Writes(w, acts[0]) && Undrained(Step(w, acts[0]), acts[1..])) || WrittenSince(Step(w, acts[0]), acts[1..]))
  }

  lemma PipeStep(w: World, a: Action)
    requires Inv(w.t)
    ensures Step(w, a).pipe > 0 <==> Writes(w, a) || (w.pipe > 0 && !(a.Drain? && w.mode == Awake))
  {
    hide InvBut, AddTimer, Cancel, Refresh, Reset, ListExpired, ToInt, Capped;
  }

  /** The pipe holds a byte exactly if one was written, by somebody who found the poller not busy, and not drained. */
  lemma {:induction false} PipeHistory(w: World, acts: seq<Action>)
    ensures Run(w, acts).pipe > 0 <==> (w.pipe > 0 && Undrained(w, acts)) || WrittenSince(w, acts)
    decreases |acts|
  {
    hide Inv, Step, Writes;
    if acts != [] && Inv(w.t) {
      PipeStep(w, acts[0]);
      PipeHistory(Step(w, acts[0]), acts[1..]);
    }
  }

  // ----- runs that lose one

  /** One timer, announced while the poller was busy; then the poller waits for it. */
  function Alone(ms: nat): seq<Action>
  {
    [Add(0, ms, User(0), false), Tickle, GoIdle, Ask, Block]
  }

  /** The poller has asked, at time zero, for a timer of period `ms`, and nothing is on its way. */
  function Asks(ms: nat): World
  {
    World(State(map[0 := Timer(ms, ms, false, Some(User(0)))], [0], false, 0), 0, Asked(ms, 0), 0, 0)
  }

  /** It waits for the timer. */
  function Waits(ms: nat): World
  {
    Asks(ms).(mode := Wait(0, 0, Capped(ms)))
  }

  lemma AloneAsks(ms: nat)
    requires 0 < ms < WORD
    ensures Run(START, [Add(0, ms, User(0), false), Tickle, GoIdle, Ask]) == Asks(ms) && Inv(Asks(ms).t)
  {
    hide AddTimer;
    AddFirst(START.t, ms, User(0), 0);
    var t := State(map[0 := Timer(ms, ms, false, Some(User(0)))], [0], true, 0);
    var w1 := World(t, 0, Busy, 0, 1);
    assert Step(START, Add(0, ms, User(0), false)) == w1;
    var w2 := World(t, 0, Busy, 0, 0);
    assert Step(w1, Tickle) == w2;
    var w3 := World(t, 0, Idle, 0, 0);
    assert Step(w2, GoIdle) == w3;
    assert Step(w3, Ask) == Asks(ms);
    Unroll(START, Add(0, ms, User(0), false), [Tickle, GoIdle, Ask]);
    Unroll(w1, Tickle, [GoIdle, Ask]);
    Unroll(w2, GoIdle, [Ask]);
    Unroll(w3, Ask, []);
  }

  lemma AloneWaits(ms: nat)
    requires 0 < ms < WORD
    ensures Run(START, Alone(ms)) == Waits(ms) && Inv(Waits(ms).t)
  {
    hide ToInt, Capped, Inv;
    AloneAsks(ms);
    var a := [Add(0, ms, User(0), false), Tickle, GoIdle, Ask];
    assert Alone(ms) == a + [Block];
    RunConcat(START, a, [Block]);
    Unroll(Asks(ms), Block, []);
  }

  lemma Unroll(w: World, a: Action, rest: seq<Action>)
    requires Inv(w.t)
    ensures Run(w, [a] + rest) == Run(Step(w, a), rest)
  {
    assert ([a] + rest)[1..] == rest;
  }

  lemma {:induction false} RunConcat(w: World, a: seq<Action>, b: seq<Action>)
    requires Inv(Run(w, a).t)
    ensures Run(w, a + b) == Run(Run(w, a), b)
    decreases |a|
  {
    hide Step, Inv;
    if a == [] {
      assert a + b == b;
    } else if Inv(w.t) {
      assert (a + b)[0] == a[0] && (a + b)[1..] == a[1..] + b;
      RunConcat(Step(w, a[0]), a[1..], b);
    }
  }

  /** Interrupted 60 milliseconds into a wait of 100, the poller waits for another 100. */
  lemma InterruptLosesWake()
    ensures var w := Run(START, Alone(100) + [Tick(60), Interrupt]); Inv(w.t) && Asleep(w) && !NoLostWake(w)
  {
    hide ToInt, Capped, Inv;
    AloneWaits(100);
    RunConcat(START, Alone(100), [Tick(60), Interrupt]);
    var w := Waits(100);
    Unroll(w, Tick(60), [Interrupt]);
    Unroll(w.(clock := 60), Interrupt, []);
    Stretched(w.(clock := 60));
  }

  lemma Stretched(w: World)
    requires Inv(w.t) && w == Waits(100).(clock := 60)
    ensures var w' := Step(w, Interrupt); Inv(w'.t) && Asleep(w') && !NoLostWake(w')
  {
    hide ToInt, Capped, InvBut;
    Short();
    CappedStays(100);
    var w' := Step(w, Interrupt);
    assert w'.mode.until == Some(160) && w'.t.all[w'.t.order[0]].next == 100;
  }

  /** With 60 milliseconds between asking and waiting the poller sleeps through the timer it asked for. */
  lemma LateBlockLosesWake()
    ensures var w := Run(START, [Add(0, 100, User(0), false), Tickle, GoIdle, Ask, Tick(60), Block]);
            Inv(w.t) && Asleep(w) && !NoLostWake(w)
  {
    hide ToInt, Capped, Inv;
    var a := [Add(0, 100, User(0), false), Tickle, GoIdle, Ask];
    AloneAsks(100);
    assert a + [Tick(60), Block] == [Add(0, 100, User(0), false), Tickle, GoIdle, Ask, Tick(60), Block];
    RunConcat(START, a, [Tick(60), Block]);
    var w := Asks(100);
    Unroll(w, Tick(60), [Block]);
    Unroll(w.(clock := 60), Block, []);
    BlocksLate(w.(clock := 60));
  }

  lemma BlocksLate(w: World)
    requires Inv(w.t) && w == Asks(100).(clock := 60)
    ensures var w' := Step(w, Block); Inv(w'.t) && Asleep(w') && !NoLostWake(w')
  {
    hide ToInt, Capped, InvBut;
    Short();
    var w' := Step(w, Block);
    assert w'.mode.until == Some(160) && w'.t.all[w'.t.order[0]].next == 100;
  }

  /** A timer due in a little under 25 days makes the poller wait without limit. */
  lemma UnboundedWait()
    ensures var w := Run(START, Alone(HALF_INT)); Inv(w.t) && w.mode.Waiting? && w.mode.until.None? && !NoLostWake(w)
  {
    AloneWaits(HALF_INT);
    assert ToInt(Capped(HALF_INT)) < 0;
  }

  /** The two timers of the next run: one due at 100, one at the last moment there is. */
  const TWO := map[0 := Timer(100, 100, false, Some(User(0))), 1 := Timer(NEVER, NEVER, false, Some(User(1)))]

  /** A period so long that the deadline wraps is refreshed to the front, and the poller sleeps on past it. */
  lemma RefreshCanLoseWake()
    ensures var w := Run(START, Alone(100) + [Add(1, NEVER, User(1), false), Tick(10), RefreshTimer(1)]);
            Inv(w.t) && Asleep(w) && !NoLostWake(w)
  {
    hide AddTimer, Refresh, ToInt, Capped, InvBut, Deadline;
    AloneWaits(100);
    var w := Waits(100);
    RunConcat(START, Alone(100), [Add(1, NEVER, User(1), false), Tick(10), RefreshTimer(1)]);
    var w1 := Step(w, Add(1, NEVER, User(1), false));
    SecondBehind(w.t);
    var w2 := w1.(clock := 10);
    Unroll(w, Add(1, NEVER, User(1), false), [Tick(10), RefreshTimer(1)]);
    Unroll(w1, Tick(10), [RefreshTimer(1)]);
    Unroll(w2, RefreshTimer(1), []);
    RefreshKeeps(w2.t, 1, 10);
    Short();
    var w3 := Step(w2, RefreshTimer(1));
    assert w3.t.all[1].next == 9;
    assert 1 in w3.t.order;
  }

  lemma Short()
    ensures Deadline(10, NEVER) == 9 && Deadline(0, NEVER) == NEVER && ToInt(Capped(100)) == 100
  {}

  lemma SecondBehind(t: State)
    requires Inv(t) && t == State(map[0 := Timer(100, 100, false, Some(User(0)))], [0], false, 0)
    ensures AddTimer(t, 1, NEVER, User(1), false, 0) == (State(TWO, [0, 1], false, 0), false)
    ensures Inv(State(TWO, [0, 1], false, 0))
  {
    Short();
    var t1 := t.(all := TWO);
    assert t.all[1 := Timer(NEVER, Deadline(0, NEVER), false, Some(User(1)))] == TWO;
    assert LowerBound(t1, KeyOf(t1, 1), 1) == 1;
    assert LowerBound(t1, KeyOf(t1, 1), 0) == 1;
    assert [0][..1] + [1] + [0][1..] == [0, 1];
    AddTimerKeeps(t, 1, NEVER, User(1), false, 0);
  }
}
