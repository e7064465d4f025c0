/** The event manager as an object whose locked operations change its fields. */
module IOManagers {
  import opened Options
  import opened Tasks
  import E = Events
  import L = EventLoop

  class IOManager {
    var ctxs: seq<E.FdContext>
    var pending: int
    var epoll: set<nat>
    var scheduled: seq<Task>  // what was handed to the scheduler, in order

    ghost function State(): E.State
      reads this
    {
      E.State(ctxs, pending, epoll)
    }

    constructor ()
      ensures State() == L.START.s && E.Inv(State()) && scheduled == []
    {
      ctxs, pending, epoll, scheduled := [], 0, {}, [];
      new;
      ContextResize(E.INITIAL_SIZE);
      assert ctxs == L.START.s.ctxs;
      L.StartIsGood();
    }

    /** Cuts the vector or fills it up with new contexts. */
    method ContextResize(size: nat)
      modifies this`ctxs
      ensures ctxs == E.Resize(old(ctxs), size)
    {
      if size <= |ctxs| {
        ctxs := ctxs[..size];
      } else {
        while |ctxs| < size
          invariant |old(ctxs)| <= |ctxs| <= size
          invariant ctxs == old(ctxs) + seq(|ctxs| - |old(ctxs)|, _ => E.IDLE)
        {
          ctxs := ctxs + [E.IDLE];
        }
      }
    }

    /** Registers a waiter; the caller must not register the same event of a descriptor twice. */
    method AddEvent(fd: nat, e: Event, w: E.Waiter, ok: bool) returns (done: bool)
      requires E.Inv(State())
      requires fd < |ctxs| ==> !ctxs[fd].events.Has(e)
      modifies this`ctxs, this`pending, this`epoll
      ensures E.Inv(State())
      ensures (State(), done) == E.AddEvent(old(State()), fd, e, w, ok)
    {
      E.AddEventKeeps(State(), fd, e, w, ok);
      E.LookupKeeps(State(), fd);
      if fd >= |ctxs| {
        ContextResize(fd * 3 / 2);
      }
      if !ok {
        return false;
      }
      pending := pending + 1;
      var c := ctxs[fd];
      c := c.(events := c.events.With(e));
      assert c.Get(e).Empty();
      ctxs := ctxs[fd := c.Set(e, E.SlotFor(w))];
      epoll := epoll + {fd};
      done := true;
    }

    method DelEvent(fd: nat, e: Event, ok: bool) returns (done: bool)
      requires E.Inv(State())
      modifies this`ctxs, this`pending, this`epoll
      ensures E.Inv(State())
      ensures (State(), done) == E.DelEvent(old(State()), fd, e, ok)
    {
      E.DelEventKeeps(State(), fd, e, ok);
      if fd >= |ctxs| || !ctxs[fd].events.Has(e) || !ok {
        return false;
      }
      var c := ctxs[fd];
      c := c.(events := c.events.Without(e));
      epoll := if c.events.None() then epoll - {fd} else epoll + {fd};
      pending := pending - 1;
      ctxs := ctxs[fd := c.Set(e, E.EMPTY)];
      done := true;
    }

    /** Takes the bit and schedules the slot's callback or fiber. */
    method TriggerEvent(fd: nat, e: Event)
      requires fd < |ctxs| && ctxs[fd].events.Has(e)
      modifies this`ctxs, this`scheduled
      ensures var (c, tasks) := E.Trigger(old(ctxs)[fd], e);
              ctxs == old(ctxs)[fd := c] && scheduled == old(scheduled) + tasks
    {
      var c := ctxs[fd];
      var slot := c.Get(e);
      c := c.(events := c.events.Without(e));
      if slot.cb.Some? {
        scheduled := scheduled + [CallTask(slot.cb.value)];
        slot := slot.(cb := None);
      } else {
        if slot.fiber.Some? {
          scheduled := scheduled + [FiberTask(slot.fiber.value)];
        }
        slot := slot.(fiber := None);
      }
      ctxs := ctxs[fd := c.Set(e, slot.(scheduler := false))];
    }

    method CancelEvent(fd: nat, e: Event, ok: bool) returns (done: bool)
      requires E.Inv(State())
      modifies this
      ensures E.Inv(State())
      ensures exists tasks :: (State(), done, tasks) == E.CancelEvent(old(State()), fd, e, ok)
                              && scheduled == old(scheduled) + tasks
    {
      E.CancelEventKeeps(State(), fd, e, ok);
      ghost var tasks := E.CancelEvent(State(), fd, e, ok).2;
      if fd >= |ctxs| || !ctxs[fd].events.Has(e) || !ok {
        assert scheduled == old(scheduled) + tasks;
        return false;
      }
      epoll := if ctxs[fd].events.Without(e).None() then epoll - {fd} else epoll + {fd};
      TriggerEvent(fd, e);
      pending := pending - 1;
      assert (State(), true, tasks) == E.CancelEvent(old(State()), fd, e, ok);
      done := true;
    }

    /** Triggers the events of a mask that are all registered, the reader first. */
    method TriggerMask(fd: nat, m: E.Mask)
      requires fd < |ctxs| && (m.r ==> ctxs[fd].events.r) && (m.w ==> ctxs[fd].events.w)
      modifies this`ctxs, this`scheduled, this`pending
      ensures var (c, tasks) := E.TriggerAll(old(ctxs)[fd], m);
              ctxs == old(ctxs)[fd := c] && scheduled == old(scheduled) + tasks
      ensures pending == old(pending) - m.Count()
    {
      if m.r {
        TriggerEvent(fd, READ);
        pending := pending - 1;
      }
      if m.w {
        TriggerEvent(fd, WRITE);
        pending := pending - 1;
      }
    }

    method CancelAll(fd: nat, ok: bool) returns (done: bool)
      requires E.Inv(State())
      modifies this
      ensures E.Inv(State())
      ensures exists tasks :: (State(), done, tasks) == E.CancelAll(old(State()), fd, ok)
                              && scheduled == old(scheduled) + tasks
    {
      E.CancelAllKeeps(State(), fd, ok);
      ghost var tasks := E.CancelAll(State(), fd, ok).2;
      if fd >= |ctxs| || ctxs[fd].events.None() || !ok {
        assert scheduled == old(scheduled) + tasks;
        return false;
      }
      epoll := epoll - {fd};
      E.TriggerAllExact(ctxs[fd], ctxs[fd].events);
      TriggerMask(fd, ctxs[fd].events);
      assert ctxs[fd].events.None();
      assert (State(), true, tasks) == E.CancelAll(old(State()), fd, ok);
      done := true;
    }

    /** The poller's loop over a batch; it stops the program where an unregistered bit would be triggered. */
    method DispatchBatch(entries: seq<L.Entry>, events: array<L.Report>, oks: seq<bool>) returns (stopped: bool)
      requires E.Inv(State()) && |entries| == events.Length == |oks|
      requires forall j :: 0 <= j < |entries| && entries[j].Fd? ==> entries[j].fd < |ctxs|
      modifies this, events
      ensures stopped <==> L.Rounds(old(State()), entries, old(events[..]), 0, oks).Stopped?
      ensures !stopped ==>
                exists tasks :: L.Rounds(old(State()), entries, old(events[..]), 0, oks)
                    == L.Done(State(), events[..], tasks)
                                && scheduled == old(scheduled) + tasks
    {
      hide L.One;
      ghost var start, reports := State(), events[..];
      ghost var tasks: seq<Task> := [];
      L.PrependTwice([], [], L.Rounds(start, entries, reports, 0, oks));
      var i := 0;
      stopped := false;
      while i < |entries|
        invariant 0 <= i <= |entries| && |ctxs| == |start.ctxs| && !stopped
        invariant scheduled == old(scheduled) + tasks
        invariant L.Rounds(start, entries, reports, 0, oks)
            == L.Prepend(tasks, L.Rounds(State(), entries, events[..], i, oks))
      {
        ghost var one := L.One(State(), entries[i], events[..], i, oks[i]);
        stopped := Round(entries[i], events, i, oks[i]);
        if stopped {
          return;
        }
        L.PrependTwice(tasks, one.tasks, L.Rounds(State(), entries, events[..], i + 1, oks));
        tasks := tasks + one.tasks;
        i := i + 1;
      }
      assert tasks + [] == tasks;
    }

    method Round(entry: L.Entry, events: array<L.Report>, i: nat, ok: bool) returns (stopped: bool)
      requires i < events.Length && (entry.Fd? ==> entry.fd < |ctxs|)
      modifies this, events
      ensures var one := L.One(old(State()), entry, old(events[..]), i, ok);
              && (stopped <==> one.Stopped?)
              && (!stopped ==> one == L.Done(State(), events[..], one.tasks) && scheduled == old(scheduled) + one.tasks)
    {
      if entry.Pipe? {
        return false;
      }
      var fd := entry.fd;
      var m := ctxs[fd].events;
      ghost var before := events[..];
      events[i] := L.Widen(events[i], m);
      assert events[..] == before[i := L.Widen(before[i], m)];
      var ready := L.Ready(events[0]);
      if m.Meet(ready).None() {
        return false;
      }
      var rest := m.Minus(ready);
      ghost var seen := events[..];
      events[i] := L.Report.Report(rest.r, rest.w, false);
      assert events[..] == seen[i := L.Report.Report(rest.r, rest.w, false)];
      if !ok {
        return false;
      }
      if !ready.Minus(m).None() {
        return true;
      }
      TriggerMask(fd, ready);
      epoll := if rest.None() then epoll - {fd} else epoll + {fd};
      return false;
    }
  }
}
