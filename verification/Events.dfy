/** Event registration per file descriptor: operations under the context's lock, as functions of the state. */
module Events {
  import opened Options
  import opened Tasks

  /** A set of events, as the bits of the context's mask. */
  datatype Mask = Mask(r: bool, w: bool)
  {
    predicate Has(e: Event) { if e == READ then r else w }
    function With(e: Event): Mask { if e == READ then this.(r := true) else this.(w := true) }
    function Without(e: Event): Mask { if e == READ then this.(r := false) else this.(w := false) }
    function Minus(m: Mask): Mask { Mask(r && !m.r, w && !m.w) }
    function Meet(m: Mask): Mask { Mask(r && m.r, w && m.w) }
    predicate None() { !r && !w }
    function Count(): nat { (if r then 1 else 0) + (if w then 1 else 0) }
  }

  const NONE := Mask(false, false)

  /** The event context: the scheduler to use, and a fiber or a callback to hand to it. */
  datatype Slot = Slot(scheduler: bool, fiber: Option<nat>, cb: Option<Callback>)
  {
    predicate Empty() { !scheduler && fiber.None? && cb.None? }
    predicate Full() { scheduler && (fiber.Some? <==> cb.None?) }
  }

  const EMPTY := Slot(false, None, None)

  datatype FdContext = FdContext(events: Mask, read: Slot, write: Slot)
  {
    function Get(e: Event): Slot { if e == READ then read else write }
    function Set(e: Event, s: Slot): FdContext { if e == READ then this.(read := s) else this.(write := s) }

    /** A bit is set exactly when its slot is full; otherwise the slot is empty. */
    predicate Coherent()
    {
      (if events.r then read.Full() else read.Empty()) && (if events.w then write.Full() else write.Empty())
    }
  }

  const IDLE := FdContext(NONE, EMPTY, EMPTY)

  /** The contexts, the pending count and the descriptors in the kernel's interest set. */
  datatype State = State(ctxs: seq<FdContext>, pending: int, epoll: set<nat>)

  const INITIAL_SIZE := 32

  function Total(ctxs: seq<FdContext>): nat
  {
    if ctxs == [] then 0 else ctxs[0].events.Count() + Total(ctxs[1..])
  }

  ghost predicate Inv(s: State)
  {
    && |s.ctxs| >= INITIAL_SIZE
    && s.pending == Total(s.ctxs)
    && (forall fd :: 0 <= fd < |s.ctxs| ==> s.ctxs[fd].Coherent())
    && (forall fd :: fd in s.epoll <==> 0 <= fd < |s.ctxs| && !s.ctxs[fd].events.None())
  }

  // ----- the operations

  /** Waiters are a callback, or the fiber that is running. */
  datatype Waiter = ByFiber(fiber: nat) | ByCallback(cb: Callback)

  function SlotFor(w: Waiter): Slot
  {
    match w
    case ByFiber(f) => Slot(true, Some(f), None)
    case ByCallback(cb) => Slot(true, None, Some(cb))
  }

  /** Takes the bit and hands the slot's callback or fiber over, leaving the slot behind. */
  function Trigger(c: FdContext, e: Event): (FdContext, seq<Task>)
    requires c.events.Has(e)
  {
    var slot := c.Get(e);
    var c' := c.(events := c.events.Without(e));
    if slot.cb.Some? then
      (c'.Set(e, Slot(false, slot.fiber, None)), [CallTask(slot.cb.value)])
    else
      (c'.Set(e, Slot(false, None, None)), if slot.fiber.Some? then [FiberTask(slot.fiber.value)] else [])
  }

  /** Vector resize: cut, or filled up with idle contexts. */
  function Resize(ctxs: seq<FdContext>, n: nat): (r: seq<FdContext>)
    ensures |r| == n
  {
    if n <= |ctxs| then ctxs[..n] else ctxs + seq(n - |ctxs|, _ => IDLE)
  }

  function Lookup(s: State, fd: nat): (s': State)
    requires |s.ctxs| >= INITIAL_SIZE
    ensures fd < |s'.ctxs|
  {
    if fd < |s.ctxs| then s else s.(ctxs := Resize(s.ctxs, fd * 3 / 2))
  }

  /** The resize of a caller that looked the size up before somebody else resized. */
  function ResizeLate(s: State, fd: nat): (s': State)
    ensures |s.ctxs| >= INITIAL_SIZE ==> |s'.ctxs| >= INITIAL_SIZE
  {
    if fd < INITIAL_SIZE then s else s.(ctxs := Resize(s.ctxs, fd * 3 / 2))
  }

  /** That drops a context with something registered. */
  predicate CutsOff(s: State, fd: nat)
  {
    fd >= INITIAL_SIZE && exists d :: fd * 3 / 2 <= d < |s.ctxs| && !s.ctxs[d].events.None()
  }

  function Put(s: State, fd: nat, c: FdContext, d: int): State
    requires fd < |s.ctxs|
  {
    State(s.ctxs[fd := c], s.pending + d, if c.events.None() then s.epoll - {fd} else s.epoll + {fd})
  }

  /** Registers a waiter unless the kernel refuses. */
  function AddEvent(s: State, fd: nat, e: Event, w: Waiter, ok: bool): (State, bool)
    requires |s.ctxs| >= INITIAL_SIZE
  {
    var s1 := Lookup(s, fd);
    if !ok then (s1, false) else
      var c := s1.ctxs[fd];
      (Put(s1, fd, c.(events := c.events.With(e)).Set(e, SlotFor(w)), 1), true)
  }

  /** Unregisters without waking anybody. */
  function DelEvent(s: State, fd: nat, e: Event, ok: bool): (State, bool)
  {
    if fd >= |s.ctxs| || !s.ctxs[fd].events.Has(e) || !ok then (s, false) else
      var c := s.ctxs[fd];
      (Put(s, fd, c.(events := c.events.Without(e)).Set(e, EMPTY), -1), true)
  }

  /** Unregisters and hands the waiter over. */
  function CancelEvent(s: State, fd: nat, e: Event, ok: bool): (State, bool, seq<Task>)
  {
    if fd >= |s.ctxs| || !s.ctxs[fd].events.Has(e) || !ok then (s, false, []) else
      var (c, tasks) := Trigger(s.ctxs[fd], e);
      (Put(s, fd, c, -1), true, tasks)
  }

  /** Hands over every waiter in the mask. */
  function TriggerAll(c: FdContext, m: Mask): (FdContext, seq<Task>)
    requires (m.r ==> c.events.r) && (m.w ==> c.events.w)
  {
    var (c1, t1) := if m.r then Trigger(c, READ) else (c, []);
    var (c2, t2) := if m.w then Trigger(c1, WRITE) else (c1, []);
    (c2, t1 + t2)
  }

  function CancelAll(s: State, fd: nat, ok: bool): (State, bool, seq<Task>)
  {
    if fd >= |s.ctxs| || s.ctxs[fd].events.None() || !ok then (s, false, []) else
      var m := s.ctxs[fd].events;
      var (c, tasks) := TriggerAll(s.ctxs[fd], m);
      (Put(s, fd, c, -(m.Count() as int)), true, tasks)
  }

  /** Handling one descriptor can stop the program: a bit to trigger must be registered. */
  datatype Outcome = Handled(s: State, tasks: seq<Task>) | Aborts

  /** What the poller does with the events it believes ready on a descriptor. */
  function Dispatch(s: State, fd: nat, ready: Mask, ok: bool): Outcome
    requires fd < |s.ctxs|
  {
    var m := s.ctxs[fd].events;
    if m.Meet(ready).None() || !ok then Handled(s, [])
    else if !ready.Minus(m).None() then Aborts
    else
      var (c, tasks) := TriggerAll(s.ctxs[fd], ready);
      Handled(Put(s, fd, c, -(ready.Count() as int)), tasks)
  }

  // ----- what they keep

  lemma {:induction false} TotalUpdate(ctxs: seq<FdContext>, i: nat, c: FdContext)
    requires i < |ctxs|
    ensures Total(ctxs[i := c]) + ctxs[i].events.Count() == Total(ctxs) + c.events.Count()
  {
    if i > 0 {
      TotalUpdate(ctxs[1..], i - 1, c);
      assert ctxs[i := c][1..] == ctxs[1..][i - 1 := c];
    } else {
      assert ctxs[i := c][1..] == ctxs[1..];
    }
  }

  lemma {:induction false} TotalAppend(a: seq<FdContext>, b: seq<FdContext>)
    ensures Total(a + b) == Total(a) + Total(b)
  {
    if a == [] {
      assert a + b == b;
    } else {
      TotalAppend(a[1..], b);
      assert (a + b)[1..] == a[1..] + b;
    }
  }

  /** No bits in total exactly when no context has one. */
  lemma {:induction false} TotalZero(ctxs: seq<FdContext>)
    ensures Total(ctxs) == 0 <==> forall i :: 0 <= i < |ctxs| ==> ctxs[i].events.None()
  {
    if ctxs != [] {
      TotalZero(ctxs[1..]);
      assert forall i :: 0 <= i < |ctxs| ==> ctxs[i] == (if i == 0 then ctxs[0] else ctxs[1..][i - 1]);
      if Total(ctxs) == 0 {
        forall i | 0 <= i < |ctxs| ensures ctxs[i].events.None() {
          if i > 0 {
            assert ctxs[1..][i - 1].events.None();
          }
        }
      } else if ctxs[0].events.None() {
        var i :| 0 <= i < |ctxs[1..]| && !ctxs[1..][i].events.None();
        assert !ctxs[i + 1].events.None();
      }
    }
  }

  lemma PutKeeps(s: State, fd: nat, c: FdContext, d: int)
    requires Inv(s) && fd < |s.ctxs| && c.Coherent()
    requires d == c.events.Count() - s.ctxs[fd].events.Count()
    ensures Inv(Put(s, fd, c, d))
  {
    TotalUpdate(s.ctxs, fd, c);
  }

  lemma LookupKeeps(s: State, fd: nat)
    requires Inv(s)
    ensures Inv(Lookup(s, fd))
    ensures forall i :: 0 <= i < |s.ctxs| ==> Lookup(s, fd).ctxs[i] == s.ctxs[i]
    ensures forall i :: |s.ctxs| <= i < |Lookup(s, fd).ctxs| ==> Lookup(s, fd).ctxs[i] == IDLE
    ensures |Lookup(s, fd).ctxs| == if fd < |s.ctxs| then |s.ctxs| else fd + fd / 2
  {
    if fd >= |s.ctxs| {
      var more := seq(fd * 3 / 2 - |s.ctxs|, _ => IDLE);
      TotalAppend(s.ctxs, more);
      TotalZero(more);
    }
  }

  /** A late resize keeps counts, bits, slots and interest set in step exactly if it drops nothing. */
  lemma LateResizeIsSafeExactly(s: State, fd: nat)
    requires Inv(s)
    ensures Inv(ResizeLate(s, fd)) <==> !CutsOff(s, fd)
  {
    if fd >= INITIAL_SIZE {
      ResizeIsSafeExactly(s, fd * 3 / 2);
    }
  }

  lemma ResizeIsSafeExactly(s: State, n: nat)
    requires Inv(s) && n >= INITIAL_SIZE
    ensures Inv(s.(ctxs := Resize(s.ctxs, n))) <==> forall fd :: n <= fd < |s.ctxs| ==> s.ctxs[fd].events.None()
  {
    var ctxs := Resize(s.ctxs, n);
    if n <= |s.ctxs| {
      TotalAppend(s.ctxs[..n], s.ctxs[n..]);
      assert s.ctxs == s.ctxs[..n] + s.ctxs[n..];
      TotalZero(s.ctxs[n..]);
      if Total(s.ctxs[n..]) == 0 {
        forall fd | n <= fd < |s.ctxs| ensures s.ctxs[fd].events.None() {
          assert s.ctxs[n..][fd - n].events.None();
        }
      } else {
        var i :| 0 <= i < |s.ctxs[n..]| && !s.ctxs[n..][i].events.None();
        assert !s.ctxs[n + i].events.None();
      }
    } else {
      TotalAppend(s.ctxs, seq(n - |s.ctxs|, _ => IDLE));
      TotalZero(seq(n - |s.ctxs|, _ => IDLE));
    }
  }

  /** The slot a waiter is put in is empty: the assertion in the code never fails. */
  lemma AddEventKeeps(s: State, fd: nat, e: Event, w: Waiter, ok: bool)
    requires Inv(s)
    requires fd < |s.ctxs| ==> !s.ctxs[fd].events.Has(e)
    ensures Lookup(s, fd).ctxs[fd].Get(e).Empty()
    ensures Inv(AddEvent(s, fd, e, w, ok).0)
  {
    LookupKeeps(s, fd);
    var s1 := Lookup(s, fd);
    if ok {
      var c := s1.ctxs[fd];
      PutKeeps(s1, fd, c.(events := c.events.With(e)).Set(e, SlotFor(w)), 1);
    }
  }

  lemma DelEventKeeps(s: State, fd: nat, e: Event, ok: bool)
    requires Inv(s)
    ensures Inv(DelEvent(s, fd, e, ok).0)
  {
    if fd < |s.ctxs| && s.ctxs[fd].events.Has(e) && ok {
      var c := s.ctxs[fd];
      PutKeeps(s, fd, c.(events := c.events.Without(e)).Set(e, EMPTY), -1);
    }
  }

  /** Handing over yields exactly one task, the slot's, and leaves the slot empty. */
  lemma TriggerExact(c: FdContext, e: Event)
    requires c.Coherent() && c.events.Has(e)
    ensures var (c', tasks) := Trigger(c, e);
            && c' == c.(events := c.events.Without(e)).Set(e, EMPTY) && c'.Coherent()
            && tasks == [WaiterTask(c.Get(e))]
  {}

  function WaiterTask(slot: Slot): Task
    requires slot.Full()
  {
    if slot.cb.Some? then CallTask(slot.cb.value) else FiberTask(slot.fiber.value)
  }

  lemma CancelEventKeeps(s: State, fd: nat, e: Event, ok: bool)
    requires Inv(s)
    ensures Inv(CancelEvent(s, fd, e, ok).0)
  {
    if fd < |s.ctxs| && s.ctxs[fd].events.Has(e) && ok {
      TriggerExact(s.ctxs[fd], e);
      PutKeeps(s, fd, Trigger(s.ctxs[fd], e).0, -1);
    }
  }

  /** Handing over a mask yields the waiters of exactly its bits, the reader first. */
  lemma TriggerAllExact(c: FdContext, m: Mask)
    requires c.Coherent() && (m.r ==> c.events.r) && (m.w ==> c.events.w)
    ensures var (c', tasks) := TriggerAll(c, m);
            && c'.Coherent() && c'.events == c.events.Minus(m)
            && (m.r ==> c'.read == EMPTY) && (!m.r ==> c'.read == c.read)
            && (m.w ==> c'.write == EMPTY) && (!m.w ==> c'.write == c.write)
            && tasks == (if m.r then [WaiterTask(c.read)] else []) + (if m.w then [WaiterTask(c.write)] else [])
  {
    if m.r {
      TriggerExact(c, READ);
    }
    var c1 := if m.r then Trigger(c, READ).0 else c;
    if m.w {
      TriggerExact(c1, WRITE);
    }
  }

  lemma CancelAllKeeps(s: State, fd: nat, ok: bool)
    requires Inv(s)
    ensures Inv(CancelAll(s, fd, ok).0)
    ensures CancelAll(s, fd, ok).1 ==> fd < |s.ctxs| && CancelAll(s, fd, ok).0.ctxs[fd] == IDLE
  {
    if fd < |s.ctxs| && !s.ctxs[fd].events.None() && ok {
      var m := s.ctxs[fd].events;
      TriggerAllExact(s.ctxs[fd], m);
      PutKeeps(s, fd, TriggerAll(s.ctxs[fd], m).0, -(m.Count() as int));
    }
  }

  lemma DispatchKeeps(s: State, fd: nat, ready: Mask, ok: bool)
    requires Inv(s) && fd < |s.ctxs|
    ensures var o := Dispatch(s, fd, ready, ok);
            && (o.Handled? ==> Inv(o.s))
            && (o.Aborts? <==> ok && !s.ctxs[fd].events.Meet(ready).None() && !ready.Minus(s.ctxs[fd].events).None())
  {
    var m := s.ctxs[fd].events;
    if !m.Meet(ready).None() && ok && ready.Minus(m).None() {
      TriggerAllExact(s.ctxs[fd], ready);
      PutKeeps(s, fd, TriggerAll(s.ctxs[fd], ready).0, -(ready.Count() as int));
    }
  }

  /** The pending count is never negative. */
  lemma PendingNeverUnderflows(s: State)
    requires Inv(s)
    ensures s.pending >= 0
    ensures s.pending == 0 <==> forall fd :: 0 <= fd < |s.ctxs| ==> s.ctxs[fd].events.None()
  {
    TotalZero(s.ctxs);
  }
}
