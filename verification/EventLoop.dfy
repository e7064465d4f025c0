/** Events over whole runs, and the poller's treatment of a batch of reports. */
module EventLoop {
  import opened Options
  import opened Tasks
  import opened Events

  // ----- every run of the operations

  /**
    Looking the vector's size up and resizing it are two critical sections of `addEvent`; when another caller comes in
    between, the resize is a `LateResize` and the registration that follows finds the vector long enough.
   */
  datatype Action =
    | Add(fd: nat, e: Event, w: Waiter, ok: bool)
    | LateResize(fd: nat)
    | Del(fd: nat, e: Event, ok: bool)
    | Cancel(fd: nat, e: Event, ok: bool)
    | Close(fd: nat, ok: bool)
    | Report(fd: nat, ready: Mask, ok: bool)

  /**
    The manager's state, and the contexts that a late resize has dropped with something registered: the vector holds
    pointers, so they stay allocated, and the kernel's entry for the descriptor still points to them.
   */
  datatype World = World(s: State, cut: map<nat, FdContext>)

  const START := World(State(seq(INITIAL_SIZE, _ => IDLE), 0, {}), map[])

  /** What a late resize drops. */
  function Dropped(s: State, fd: nat): map<nat, FdContext>
  {
    map d: nat | |ResizeLate(s, fd).ctxs| <= d < |s.ctxs| && !s.ctxs[d].events.None() :: s.ctxs[d]
  }

  /** A report for a descriptor whose context was dropped goes to that context. */
  function ReportCut(w: World, fd: nat, ready: Mask, ok: bool): (World, seq<Task>)
    requires fd in w.cut
  {
    var c := w.cut[fd];
    if c.events.Meet(ready).None() || !ok || !ready.Minus(c.events).None() then (w, []) else
      var (c', tasks) := TriggerAll(c, ready);
      var s := w.s.(pending := w.s.pending - ready.Count(),
                    epoll := if c'.events.None() then w.s.epoll - {fd} else w.s.epoll);
      (World(s, if c'.events.None() then w.cut - {fd} else w.cut[fd := c']), tasks)
  }

  /**
    One operation and the waiters it hands over; one that fails an assertion ends the program and is left out of runs.
    The kernel refuses to add a descriptor that it has an entry for.
   */
  function Do(w: World, a: Action): (r: (World, seq<Task>))
    requires |w.s.ctxs| >= INITIAL_SIZE
    ensures |r.0.s.ctxs| >= INITIAL_SIZE
  {
    var s := w.s;
    match a
    case Add(fd, e, x, ok) =>
      if fd < |s.ctxs| && s.ctxs[fd].events.Has(e) then (w, [])
      else (w.(s := AddEvent(s, fd, e, x, ok && fd !in w.cut).0), [])
    case LateResize(fd) => (World(ResizeLate(s, fd), w.cut + Dropped(s, fd)), [])
    case Del(fd, e, ok) => (w.(s := DelEvent(s, fd, e, ok).0), [])
    case Cancel(fd, e, ok) => var (s', _, tasks) := CancelEvent(s, fd, e, ok); (w.(s := s'), tasks)
    case Close(fd, ok) => var (s', _, tasks) := CancelAll(s, fd, ok); (w.(s := s'), tasks)
    case Report(fd, ready, ok) =>
      if fd in w.cut then ReportCut(w, fd, ready, ok)
      else if fd >= |s.ctxs| then (w, []) else
        match Dispatch(s, fd, ready, ok)
        case Handled(s', tasks) => (w.(s := s'), tasks)
        case Aborts => (w, [])
  }

  function Step(w: World, a: Action): (w': World)
    requires |w.s.ctxs| >= INITIAL_SIZE
    ensures |w'.s.ctxs| >= INITIAL_SIZE
  {
    Do(w, a).0
  }

  /** The step drops a context with something registered. */
  predicate Cuts(w: World, a: Action)
  {
    a.LateResize? && CutsOff(w.s, a.fd)
  }

  /** Counts, bits, slots and interest set agree, and every registered context is in the vector. */
  ghost predicate InStep(w: World)
  {
    Inv(w.s) && w.cut == map[]
  }

  lemma StepKeeps(w: World, a: Action)
    requires InStep(w)
    ensures InStep(Step(w, a)) <==> !Cuts(w, a)
  {
    hide Inv;
    var s := w.s;
    InvSize(s);
    match a
    case Add(fd, e, x, ok) =>
      if !(fd < |s.ctxs| && s.ctxs[fd].events.Has(e)) {
        AddEventKeeps(s, fd, e, x, ok);
      }
    case LateResize(fd) =>
      LateResizeIsSafeExactly(s, fd);
      DroppedExactly(s, fd);
      assert w.cut + Dropped(s, fd) == Dropped(s, fd);
    case Del(fd, e, ok) => DelEventKeeps(s, fd, e, ok);
    case Cancel(fd, e, ok) => CancelEventKeeps(s, fd, e, ok);
    case Close(fd, ok) => CancelAllKeeps(s, fd, ok);
    case Report(fd, ready, ok) =>
      if fd < |s.ctxs| {
        DispatchKeeps(s, fd, ready, ok);
      }
  }

  lemma DroppedExactly(s: State, fd: nat)
    ensures Dropped(s, fd) == map[] <==> !CutsOff(s, fd)
  {
    if CutsOff(s, fd) {
      var d :| fd * 3 / 2 <= d < |s.ctxs| && !s.ctxs[d].events.None();
      assert d in Dropped(s, fd);
    }
  }

  lemma InvSize(s: State)
    requires Inv(s)
    ensures |s.ctxs| >= INITIAL_SIZE
  {}

  function Run(w: World, acts: seq<Action>): (w': World)
    requires |w.s.ctxs| >= INITIAL_SIZE
    ensures |w'.s.ctxs| >= INITIAL_SIZE
    decreases |acts|
  {
    if acts == [] then w else Run(Step(w, acts[0]), acts[1..])
  }

  /** At every point of the run counts, bits, slots and interest set are in step. */
  ghost predicate AlwaysInStep(w: World, acts: seq<Action>)
    requires |w.s.ctxs| >= INITIAL_SIZE
    decreases |acts|
  {
    InStep(w) && w.s.pending >= 0 && (acts == [] || AlwaysInStep(Step(w, acts[0]), acts[1..]))
  }

  predicate NeverCuts(w: World, acts: seq<Action>)
    requires |w.s.ctxs| >= INITIAL_SIZE
    decreases |acts|
  {
    acts == [] || (!Cuts(w, acts[0]) && NeverCuts(Step(w, acts[0]), acts[1..]))
  }

  /**
    In every run the pending count is the number of registered bits and never negative, bits and full slots coincide,
    and the interest set holds exactly the descriptors with a bit, exactly if no late resize drops a waiter.
   */
  lemma {:induction false} RunKeeps(w: World, acts: seq<Action>)
    requires InStep(w)
    ensures |w.s.ctxs| >= INITIAL_SIZE && (AlwaysInStep(w, acts) <==> NeverCuts(w, acts))
    decreases |acts|
  {
    hide Step, Cuts, Inv;
    InvSize(w.s);
    PendingNeverUnderflows(w.s);
    if acts != [] {
      StepKeeps(w, acts[0]);
      if Cuts(w, acts[0]) {
        NotInStep(Step(w, acts[0]), acts[1..]);
      } else {
        RunKeeps(Step(w, acts[0]), acts[1..]);
      }
    }
  }

  lemma NotInStep(w: World, acts: seq<Action>)
    requires |w.s.ctxs| >= INITIAL_SIZE && !InStep(w)
    ensures !AlwaysInStep(w, acts)
  {}

  lemma StartIsGood()
    ensures InStep(START)
  {
    TotalZero(START.s.ctxs);
  }

  // ----- a context that was dropped

  /** A descriptor's context was dropped; its place in the vector, if there is one again, has nothing registered. */
  predicate IsCut(w: World, fd: nat)
  {
    && |w.s.ctxs| >= INITIAL_SIZE && fd in w.cut && w.cut[fd].Coherent() && !w.cut[fd].events.None()
    && (fd < |w.s.ctxs| ==> w.s.ctxs[fd].events.None())
  }

  /** Dropping a registered context makes it one, whatever happened before. */
  lemma DropIsCut(w: World, fd: nat, g: nat)
    requires Inv(w.s) && |ResizeLate(w.s, fd).ctxs| <= g < |w.s.ctxs| && !w.s.ctxs[g].events.None()
    ensures var w' := Step(w, LateResize(fd)); IsCut(w', g) && w'.cut[g] == w.s.ctxs[g]
  {
    assert w.s.ctxs[g].Coherent();
    assert g in Dropped(w.s, fd);
  }

  lemma LookupLeaves(s: State, fd: nat, g: nat)
    requires |s.ctxs| >= INITIAL_SIZE
    ensures var s' := Lookup(s, fd);
            g < |s'.ctxs| ==> s'.ctxs[g] == if g < |s.ctxs| then s.ctxs[g] else IDLE
  {}

  /** No operation but a report for its descriptor touches a dropped context, or hands over a waiter for it. */
  lemma CutStays(w: World, a: Action, fd: nat)
    requires IsCut(w, fd) && !(a.Report? && a.fd == fd)
    ensures var (w', tasks) := Do(w, a);
            && IsCut(w', fd) && w'.cut[fd] == w.cut[fd]
            && ((a.Del? || a.Cancel? || a.Close?) && a.fd == fd ==> w' == w && tasks == [])
  {
    if a.Add? {
      LookupLeaves(w.s, a.fd, fd);
    }
  }

  /** A report for its descriptor hands over exactly the waiters of the bits reported. */
  lemma CutIsReported(w: World, fd: nat, ready: Mask)
    requires IsCut(w, fd) && !ready.None() && ready.Minus(w.cut[fd].events).None()
    ensures var c, (w', tasks) := w.cut[fd], Do(w, Action.Report(fd, ready, true));
            && tasks == (if ready.r then [WaiterTask(c.read)] else []) + (if ready.w then [WaiterTask(c.write)] else [])
            && w'.s.pending == w.s.pending - ready.Count()
            && (if c.events == ready then fd !in w'.cut && fd !in w'.s.epoll
                else fd in w'.cut && w'.cut[fd].events == c.events.Minus(ready))
  {
    TriggerAllExact(w.cut[fd], ready);
  }

  /** As long as its descriptor is not reported, a dropped context keeps its waiters, whoever deletes or cancels. */
  lemma {:induction false} CutWaits(w: World, acts: seq<Action>, fd: nat)
    requires IsCut(w, fd)
    requires forall i :: 0 <= i < |acts| ==> !(acts[i].Report? && acts[i].fd == fd)
    ensures IsCut(Run(w, acts), fd) && Run(w, acts).cut[fd] == w.cut[fd]
    decreases |acts|
  {
    if acts != [] {
      CutStays(w, acts[0], fd);
      CutWaits(Step(w, acts[0]), acts[1..], fd);
    }
  }

  /**
    Two callers find the vector of 32 too small, one for descriptor 100, one for 40; the second drops the context of the
    first.  Its waiter is out of reach of delEvent, cancelEvent and cancelAll; only a report wakes it.
   */
  lemma LateResizeCanLoseAWaiter(f: nat)
    ensures var acts := [Add(100, READ, ByFiber(f), true), LateResize(40)];
            var w := Run(START, acts);
            && !AlwaysInStep(START, acts) && w.s.pending == 1 && |w.s.ctxs| == 60
            && Do(w, Del(100, READ, true)) == (w, []) && Do(w, Cancel(100, READ, true)) == (w, [])
            && Do(w, Close(100, true)) == (w, [])
            && Do(w, Action.Report(100, Mask(true, false), true)).1 == [FiberTask(f)]
  {
    hide InStep, Do, AlwaysInStep;
    StartIsGood();
    var a, b := Add(100, READ, ByFiber(f), true), LateResize(40);
    var w := Step(START, a);
    Registers(f);
    assert [a, b][1..] == [b] && [b][1..] == [];
    assert Run(START, [a, b]) == Run(w, [b]);
    assert Run(w, [b]) == Step(w, b);
    RunKeeps(START, [a, b]);
    Smaller(w);
    DropIsCut(w, 40, 100);
    assert Cuts(w, b);
    assert !NeverCuts(w, [b]);
    assert !NeverCuts(START, [a, b]);
    var w' := Step(w, b);
    CutStays(w', Del(100, READ, true), 100);
    CutStays(w', Cancel(100, READ, true), 100);
    CutStays(w', Close(100, true), 100);
    CutIsReported(w', 100, Mask(true, false));
  }

  lemma Registers(f: nat)
    ensures var w := Step(START, Add(100, READ, ByFiber(f), true));
            && Inv(w.s) && |w.s.ctxs| == 150 && w.s.pending == 1
            && w.s.ctxs[100] == IDLE.(events := Mask(true, false), read := SlotFor(ByFiber(f)))
  {
    StartIsGood();
    AddEventKeeps(START.s, 100, READ, ByFiber(f), true);
  }

  lemma Smaller(w: World)
    requires |w.s.ctxs| == 150
    ensures var w' := Step(w, LateResize(40)); |w'.s.ctxs| == 60 && w'.s.pending == w.s.pending
    ensures |ResizeLate(w.s, 40).ctxs| == 60
  {}

  // ----- a batch of reports

  /** What was reported: the wake pipe, or a descriptor. */
  datatype Entry = Pipe | Fd(fd: nat)

  /** The report's bits: readable, writable, error or hang-up. */
  datatype Report = Report(input: bool, output: bool, err: bool)

  function Ready(b: Report): Mask
  {
    Mask(b.input, b.output)
  }

  datatype Batch = Done(s: State, reports: seq<Report>, tasks: seq<Task>) | Stopped

  /** An error makes everything registered ready. */
  function Widen(b: Report, m: Mask): Report
  {
    if b.err then Report.Report(b.input || m.r, b.output || m.w, true) else b
  }

  /**
    One round of the loop.  The bits are taken from the first report of the batch whatever entry is being handled,
    and the report of the entry itself is overwritten with the bits that stay registered.
   */
  function One(s: State, entry: Entry, reports: seq<Report>, i: nat, ok: bool): (b: Batch)
    requires i < |reports| && (entry.Fd? ==> entry.fd < |s.ctxs|)
    ensures b.Done? ==> |b.reports| == |reports| && |b.s.ctxs| == |s.ctxs|
  {
    if entry.Pipe? then Done(s, reports, []) else
      var m := s.ctxs[entry.fd].events;
      var seen := reports[i := Widen(reports[i], m)];
      var ready := Ready(seen[0]);
      if m.Meet(ready).None() then Done(s, seen, []) else
        var rest := m.Minus(ready);
        var left := seen[i := Report.Report(rest.r, rest.w, false)];
        match Dispatch(s, entry.fd, ready, ok)
        case Handled(s', tasks) => Done(s', left, tasks)
        case Aborts => Stopped
  }

  function Rounds(s: State, entries: seq<Entry>, reports: seq<Report>, i: nat, oks: seq<bool>): Batch
    requires |entries| == |reports| == |oks| && i <= |entries|
    requires forall j :: 0 <= j < |entries| && entries[j].Fd? ==> entries[j].fd < |s.ctxs|
    decreases |entries| - i
  {
    if i == |entries| then Done(s, reports, []) else
      match One(s, entries[i], reports, i, oks[i])
      case Stopped => Stopped
      case Done(s1, r1, t1) => Prepend(t1, Rounds(s1, entries, r1, i + 1, oks))
  }

  /** Tasks handed over before the rest of a batch. */
  function Prepend(tasks: seq<Task>, b: Batch): Batch
  {
    match b
    case Stopped => Stopped
    case Done(s, r, t) => Done(s, r, tasks + t)
  }

  lemma PrependTwice(t1: seq<Task>, t2: seq<Task>, b: Batch)
    ensures Prepend([], b) == b
    ensures Prepend(t1, Prepend(t2, b)) == Prepend(t1 + t2, b)
  {
    if b.Done? {
      assert t1 + (t2 + b.tasks) == (t1 + t2) + b.tasks;
      assert [] + b.tasks == b.tasks;
    }
  }

  /** The first entry is treated as reported: its ready waiters, and only those, are handed over. */
  lemma FirstEntryIsExact(s: State, fd: nat, reports: seq<Report>)
    requires Inv(s) && |reports| > 0 && fd < |s.ctxs|
    requires (reports[0].input ==> s.ctxs[fd].events.r) && (reports[0].output ==> s.ctxs[fd].events.w)
    ensures var m, c := Ready(Widen(reports[0], s.ctxs[fd].events)), s.ctxs[fd];
            var b := One(s, Fd(fd), reports, 0, true);
            && b.Done? && Inv(b.s)
            && b.tasks == (if m.r then [WaiterTask(c.read)] else []) + (if m.w then [WaiterTask(c.write)] else [])
            && b.s.ctxs == s.ctxs[fd := b.s.ctxs[fd]] && b.s.ctxs[fd].events == c.events.Minus(m)
  {
    var m, c := Ready(Widen(reports[0], s.ctxs[fd].events)), s.ctxs[fd];
    DispatchKeeps(s, fd, m, true);
    TriggerAllExact(c, m);
  }

  /** The report's own bit for an event. */
  predicate Says(b: Report, e: Event)
  {
    if e == READ then b.input else b.output
  }

  /** An event is registered, and reported or covered by an error or a hang-up. */
  predicate Wanted(c: FdContext, b: Report, e: Event)
  {
    c.events.Has(e) && (b.err || Says(b, e))
  }

  /** The report has a bit for an event that is not registered. */
  predicate Alien(c: FdContext, b: Report)
  {
    (b.input && !c.events.r) || (b.output && !c.events.w)
  }

  /** What a report widened to what is registered says, on the bits of both. */
  lemma WidenExact(b: Report, m: Mask, e: Event)
    ensures Ready(Widen(b, m)).Has(e) <==> Says(b, e) || (b.err && m.Has(e))
  {}

  /**
    Entry 0 of a batch, on the report's own bits: with an error or hang-up every registered waiter is handed over and
    the context is left idle; without one exactly the registered waiters whose bit is set are.  The program stops if
    somebody is to be handed over and a bit is set that is not registered.
   */
  lemma FirstEntryOnBits(s: State, fd: nat, reports: seq<Report>)
    requires Inv(s) && reports != [] && fd < |s.ctxs|
    ensures var b, c, one := reports[0], s.ctxs[fd], One(s, Fd(fd), reports, 0, true);
            && (one.Stopped? <==> Alien(c, b) && (Wanted(c, b, READ) || Wanted(c, b, WRITE)))
            && (one.Done? ==>
                  && Inv(one.s) && one.s.ctxs == s.ctxs[fd := one.s.ctxs[fd]]
                  && one.tasks == (if Wanted(c, b, READ) then [WaiterTask(c.read)] else [])
                                  + (if Wanted(c, b, WRITE) then [WaiterTask(c.write)] else [])
                  && one.s.ctxs[fd].read == (if Wanted(c, b, READ) then EMPTY else c.read)
                  && one.s.ctxs[fd].write == (if Wanted(c, b, WRITE) then EMPTY else c.write)
                  && (b.err ==> one.s.ctxs[fd] == IDLE))
  {
    hide Inv, Widen;
    var b, c := reports[0], s.ctxs[fd];
    var m := Ready(Widen(b, c.events));
    WidenExact(b, c.events, READ);
    WidenExact(b, c.events, WRITE);
    CoherentAt(s, fd);
    DispatchKeeps(s, fd, m, true);
    if !c.events.Meet(m).None() && m.Minus(c.events).None() {
      TriggerAllExact(c, m);
    }
    assert s.ctxs[fd := c] == s.ctxs;
  }

  lemma CoherentAt(s: State, fd: nat)
    requires Inv(s) && fd < |s.ctxs|
    ensures s.ctxs[fd].Coherent()
  {}

  /** A fiber registered for reading alone is handed over by a hang-up alone. */
  lemma HangUpHandsOver(s: State, fd: nat, f: nat)
    requires Inv(s) && fd < |s.ctxs| && s.ctxs[fd].events == Mask(true, false) && s.ctxs[fd].read.fiber == Some(f)
    ensures var r := Rounds(s, [Fd(fd)], [Report.Report(false, false, true)], 0, [true]);
            r.Done? && r.tasks == [FiberTask(f)] && |r.s.ctxs| == |s.ctxs| && r.s.ctxs[fd] == IDLE
  {
    hide Inv, One;
    var entries, reports := [Fd(fd)], [Report.Report(false, false, true)];
    FirstEntryOnBits(s, fd, reports);
    CoherentAt(s, fd);
    var one := One(s, entries[0], reports, 0, true);
    assert Rounds(one.s, entries, one.reports, 1, [true]) == Done(one.s, one.reports, []);
    assert one.tasks + [] == one.tasks;
  }

  /**
    Once the first report holds no bit, which is what handling its entry leaves when everything registered was
    ready, all later entries of the batch are passed over.
   */
  lemma {:induction false} LaterEntriesAreDropped(s: State, entries: seq<Entry>, reports: seq<Report>, i: nat,
      oks: seq<bool>)
    requires |entries| == |reports| == |oks| && 1 <= i <= |entries|
    requires forall j :: 0 <= j < |entries| && entries[j].Fd? ==> entries[j].fd < |s.ctxs|
    requires Ready(reports[0]).None()
    ensures var b := Rounds(s, entries, reports, i, oks); b.Done? && b.s == s && b.tasks == []
    decreases |entries| - i
  {
    if i < |entries| {
      var b := One(s, entries[i], reports, i, oks[i]);
      assert b.Done? && b.s == s && b.tasks == [] && Ready(b.reports[0]).None();
      LaterEntriesAreDropped(s, entries, b.reports, i + 1, oks);
    }
  }

  /** Two descriptors ready in one batch: the second one's waiter stays where it is. */
  lemma SecondWaiterIsLost(s: State, a: nat, b: nat)
    requires Inv(s) && a < |s.ctxs| && b < |s.ctxs| && a != b
    requires s.ctxs[a].events == Mask(true, false) && s.ctxs[b].events == Mask(true, false)
    ensures var report := Report.Report(true, false, false);
            var r := Rounds(s, [Fd(a), Fd(b)], [report, report], 0, [true, true]);
            r.Done? && r.tasks == [WaiterTask(s.ctxs[a].read)] && |r.s.ctxs| == |s.ctxs| && r.s.ctxs[b] == s.ctxs[b]
  {
    var report := Report.Report(true, false, false);
    var entries, reports, oks := [Fd(a), Fd(b)], [report, report], [true, true];
    FirstEntryIsExact(s, a, reports);
    var first := One(s, entries[0], reports, 0, true);
    LaterEntriesAreDropped(first.s, entries, first.reports, 1, oks);
  }
}
