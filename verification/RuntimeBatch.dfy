/** A whole batch of reports in the composed runtime: which waiting calls it wakes, and which it misses. */
module RuntimeBatch {
  import opened Tasks
  import Timers
  import Events
  import EventLoop
  import Batches
  import opened Runtime
  import opened RuntimeInv
  import opened RuntimeWaits
  import opened RuntimeTheorems
  import opened RuntimeWakes

  /** The rounds of the loop from `i` on, as steps of the runtime: each descriptor with the bits used for it. */
  function Readies(entries: seq<EventLoop.Entry>, i: nat, bits: seq<Events.Mask>, oks: seq<bool>): seq<Action>
    requires |entries| == |bits| == |oks| && i <= |entries|
    decreases |entries| - i
  {
    if i == |entries| then [] else
      (if entries[i].Pipe? then [] else [Ready(entries[i].fd, bits[i], oks[i])]) + Readies(entries, i + 1, bits, oks)
  }

  /** All descriptors of the batch have contexts. */
  predicate InTable(io: Events.State, entries: seq<EventLoop.Entry>)
  {
    forall j :: 0 <= j < |entries| && entries[j].Fd? ==> entries[j].fd < |io.ctxs|
  }

  /** Some round from `i` on takes the event a call waits for. */
  predicate Hit(entries: seq<EventLoop.Entry>, i: nat, bits: seq<Events.Mask>, oks: seq<bool>, c: Call)
    requires |entries| == |bits| == |oks|
  {
    exists j :: i <= j < |entries| && entries[j] == EventLoop.Fd(c.fd) && oks[j] && bits[j].Has(c.ev)
  }

  // ----- the batch is a run

  lemma OneReady(s: State, a: Action, rest: seq<Action>)
    ensures Run(s, [a] + rest) == Run(Step(s, a), rest)
  {
    assert ([a] + rest)[0] == a && ([a] + rest)[1..] == rest;
  }

  lemma ReadyStep(s: State, fd: nat, ready: Events.Mask, ok: bool)
    requires Inv(s) && fd < |s.io.ctxs| && Events.Dispatch(s.io, fd, ready, ok).Handled?
    ensures Step(s, Ready(fd, ready, ok)) == ReadyNext(s, fd, ready, ok) && Inv(ReadyNext(s, fd, ready, ok))
  {
    hide InvBut, ReadyNext, Timers.Inv, Events.Dispatch;
    InvIsSound(s, {});
    RuntimeWaits.ReadyKeeps(s, fd, ready, ok);
  }

  /** The rounds of a batch, one after the other, are the loop: its events and the tasks it hands over. */
  lemma {:induction false} BatchIsRun(s: State, entries: seq<EventLoop.Entry>, i: nat, bits: seq<Events.Mask>,
      oks: seq<bool>)
    requires Inv(s) && |entries| == |bits| == |oks| && i <= |entries| && InTable(s.io, entries)
    requires Batches.Each(s.io, entries, i, bits, oks).Handled?
    ensures var o, t := Batches.Each(s.io, entries, i, bits, oks), Run(s, Readies(entries, i, bits, oks));
            Inv(t) && t == s.(io := o.s, sched := Deliver(s.sched, o.tasks))
    decreases |entries| - i
  {
    hide InvBut, Step, Deliver, Events.Dispatch;
    if i == |entries| {
      DeliverNone(s.sched);
    } else if entries[i].Pipe? {
      assert [] + Readies(entries, i + 1, bits, oks) == Readies(entries, i + 1, bits, oks);
      BatchIsRun(s, entries, i + 1, bits, oks);
    } else {
      var fd := entries[i].fd;
      var d, s1 := Events.Dispatch(s.io, fd, bits[i], oks[i]), ReadyNext(s, fd, bits[i], oks[i]);
      ReadyStep(s, fd, bits[i], oks[i]);
      SameLength(s.io, fd, bits[i], oks[i]);
      OneReady(s, Ready(fd, bits[i], oks[i]), Readies(entries, i + 1, bits, oks));
      BatchIsRun(s1, entries, i + 1, bits, oks);
      DeliverConcat(s.sched, d.tasks, Batches.Each(s1.io, entries, i + 1, bits, oks).tasks);
    }
  }

  lemma SameLength(io: Events.State, fd: nat, x: Events.Mask, ok: bool)
    requires fd < |io.ctxs|
    ensures var o := Events.Dispatch(io, fd, x, ok); o.Handled? ==> |o.s.ctxs| == |io.ctxs|
  {}

  // ----- whom it wakes

  /** A fiber that waits for no event is left alone by reports. */
  lemma ReadySpares(s: State, fd: nat, ready: Events.Mask, ok: bool, f: nat)
    requires Inv(s) && fd < |s.io.ctxs| && Events.Dispatch(s.io, fd, ready, ok).Handled? && !InWait(s, f)
    ensures Undisturbed(s, ReadyNext(s, fd, ready, ok), f) && !InWait(ReadyNext(s, fd, ready, ok), f)
  {
    hide InvBut, Deliver, Times, Release;
    InvIo(s);
    DeliverNone(s.sched);
    if !s.io.ctxs[fd].events.Meet(ready).None() && ok {
      MaskIsReleases(s, fd, ready);
      var s1 := ReleaseIf(s, fd, READ, ready.r);
      ReleaseKeeps(s, fd, READ, true);
      ReleaseProg(s, fd, READ, true);
      SparesElse(s, fd, READ, f);
      SparesElse(s1, fd, WRITE, f);
    }
  }

  lemma ThenWoken(s: State, t: State, u: State, f: nat)
    requires Woken(s, t, f) && Undisturbed(t, u, f)
    ensures Woken(s, u, f)
  {
    hide Times;
  }

  lemma StillAlone(s: State, t: State, u: State, f: nat)
    requires Undisturbed(s, t, f)
    ensures Undisturbed(t, u, f) ==> Undisturbed(s, u, f)
    ensures Woken(t, u, f) ==> Woken(s, u, f)
  {
    hide Times;
  }

  /** What a stretch of the batch does to a fiber. */
  ghost predicate Treats(s: State, t: State, f: nat, hit: bool)
  {
    if InWait(s, f) && hit then Woken(s, t, f) else Undisturbed(s, t, f)
  }

  /** One round: a waiting call is woken if the bits have its event, and no other fiber is touched. */
  lemma RoundTreats(s: State, fd: nat, ready: Events.Mask, ok: bool, f: nat)
    requires Inv(s) && fd < |s.io.ctxs| && Events.Dispatch(s.io, fd, ready, ok).Handled?
    ensures var t := ReadyNext(s, fd, ready, ok);
            var hit := InWait(s, f) && ok && fd == s.prog[f].call.fd && ready.Has(s.prog[f].call.ev);
            t.prog == s.prog && Treats(s, t, f, hit) && (InWait(t, f) <==> InWait(s, f) && !hit)
  {
    hide InvBut, Deliver, Times, Events.Dispatch;
    if InWait(s, f) {
      ReadyWakes(s, fd, ready, ok, f);
    } else {
      ReadySpares(s, fd, ready, ok, f);
    }
  }

  lemma {:induction false} BatchTreats(s: State, entries: seq<EventLoop.Entry>, i: nat, bits: seq<Events.Mask>,
      oks: seq<bool>, f: nat)
    requires Inv(s) && |entries| == |bits| == |oks| && i <= |entries| && InTable(s.io, entries)
    requires Batches.Each(s.io, entries, i, bits, oks).Handled?
    ensures Treats(s, Run(s, Readies(entries, i, bits, oks)), f,
                   InWait(s, f) && Hit(entries, i, bits, oks, s.prog[f].call))
    decreases |entries| - i
  {
    hide InvBut, Step, Deliver, Events.Dispatch, Woken, Undisturbed, ReadyNext;
    if i == |entries| {
      Alone(s, f);
    } else if entries[i].Pipe? {
      assert [] + Readies(entries, i + 1, bits, oks) == Readies(entries, i + 1, bits, oks);
      BatchTreats(s, entries, i + 1, bits, oks, f);
      if InWait(s, f) {
        NextHit(entries, i, bits, oks, s.prog[f].call);
      }
    } else {
      var fd := entries[i].fd;
      var s1 := ReadyNext(s, fd, bits[i], oks[i]);
      ReadyStep(s, fd, bits[i], oks[i]);
      RoundIo(s, fd, bits[i], oks[i]);
      OneReady(s, Ready(fd, bits[i], oks[i]), Readies(entries, i + 1, bits, oks));
      RoundTreats(s, fd, bits[i], oks[i], f);
      BatchTreats(s1, entries, i + 1, bits, oks, f);
      var t := Run(s, Readies(entries, i, bits, oks));
      if Undisturbed(s, s1, f) {
        StillAlone(s, s1, t, f);
      }
      if Woken(s, s1, f) && Undisturbed(s1, t, f) {
        ThenWoken(s, s1, t, f);
      }
      if InWait(s, f) {
        NextHit(entries, i, bits, oks, s.prog[f].call);
      }
    }
  }

  lemma Alone(s: State, f: nat)
    ensures Undisturbed(s, s, f)
  {}

  lemma RoundIo(s: State, fd: nat, x: Events.Mask, ok: bool)
    requires fd < |s.io.ctxs| && Events.Dispatch(s.io, fd, x, ok).Handled?
    ensures ReadyNext(s, fd, x, ok).io == Events.Dispatch(s.io, fd, x, ok).s
    ensures |ReadyNext(s, fd, x, ok).io.ctxs| == |s.io.ctxs|
  {
    SameLength(s.io, fd, x, ok);
  }

  lemma NextHit(entries: seq<EventLoop.Entry>, i: nat, bits: seq<Events.Mask>, oks: seq<bool>, c: Call)
    requires |entries| == |bits| == |oks| && i < |entries|
    ensures Hit(entries, i, bits, oks, c) <==>
              || (entries[i] == EventLoop.Fd(c.fd) && oks[i] && bits[i].Has(c.ev))
              || Hit(entries, i + 1, bits, oks, c)
  {}

  /**
    The loop takes the event a call waits for: its descriptor is entry 0 and the event was reported, or its descriptor
    comes later and entry 0 was left with the event, whatever was reported.
   */
  predicate Takes(io: Events.State, entries: seq<EventLoop.Entry>, reports: seq<EventLoop.Report>, oks: seq<bool>,
      c: Call)
    requires |entries| == |reports| == |oks| && entries != [] && InTable(io, entries)
  {
    || (entries[0] == EventLoop.Fd(c.fd) && oks[0] && Batches.Own(io, entries[0], reports[0]).Has(c.ev))
    || (Batches.Leftover(io, entries[0], reports[0]).Has(c.ev)
        && exists j :: 1 <= j < |entries| && entries[j] == EventLoop.Fd(c.fd) && oks[j])
  }

  lemma TakesHit(io: Events.State, entries: seq<EventLoop.Entry>, reports: seq<EventLoop.Report>, oks: seq<bool>,
      c: Call)
    requires |entries| == |reports| == |oks| && entries != [] && InTable(io, entries)
    ensures Hit(entries, 0, Batches.AsRead(io, entries, reports), oks, c) <==> Takes(io, entries, reports, oks, c)
  {
    hide Batches.Own, Batches.Leftover;
    var bits := Batches.AsRead(io, entries, reports);
    assert forall j :: 1 <= j < |entries| ==> bits[j] == Batches.Leftover(io, entries[0], reports[0]);
  }

  /** The state after the poller's loop over a batch. */
  function Handled(s: State, b: EventLoop.Batch): State
    requires b.Done?
  {
    s.(io := b.s, sched := Deliver(s.sched, b.tasks))
  }

  /** The loop over a batch is a run of the runtime, a step for each round. */
  lemma LoopIsRun(s: State, entries: seq<EventLoop.Entry>, reports: seq<EventLoop.Report>, oks: seq<bool>)
    requires Inv(s) && |entries| == |reports| == |oks| && InTable(s.io, entries)
    requires EventLoop.Rounds(s.io, entries, reports, 0, oks).Done?
    ensures var bits := Batches.AsRead(s.io, entries, reports);
            var t := Handled(s, EventLoop.Rounds(s.io, entries, reports, 0, oks));
            && Batches.Each(s.io, entries, 0, bits, oks).Handled?
            && t == Run(s, Readies(entries, 0, bits, oks)) && Inv(t)
  {
    hide InvBut, Run, Deliver, Batches.Each, EventLoop.Rounds, Readies;
    var bits := Batches.AsRead(s.io, entries, reports);
    Batches.RoundsClosed(s.io, entries, reports, oks);
    BatchIsRun(s, entries, 0, bits, oks);
  }

  /**
    What the poller's loop does with a batch, in the composed runtime: a waiting call is woken exactly if the loop
    takes its event, and every other fiber is left alone.
   */
  lemma BatchWakesExactly(s: State, entries: seq<EventLoop.Entry>, reports: seq<EventLoop.Report>, oks: seq<bool>,
      f: nat)
    requires Inv(s) && |entries| == |reports| == |oks| && entries != [] && InTable(s.io, entries)
    requires EventLoop.Rounds(s.io, entries, reports, 0, oks).Done?
    ensures var t := Handled(s, EventLoop.Rounds(s.io, entries, reports, 0, oks));
            if InWait(s, f) && Takes(s.io, entries, reports, oks, s.prog[f].call) then Woken(s, t, f)
            else Undisturbed(s, t, f)
  {
    hide InvBut, Run, Woken, Undisturbed, Handled, Hit, Takes, Batches.AsRead, EventLoop.Rounds, Readies;
    var bits := Batches.AsRead(s.io, entries, reports);
    LoopIsRun(s, entries, reports, oks);
    BatchTreats(s, entries, 0, bits, oks, f);
    if InWait(s, f) {
      TakesHit(s.io, entries, reports, oks, s.prog[f].call);
    }
  }

  /**
    A waiting call whose descriptor is entry 0 is woken exactly if its event was reported, or an error or a hang-up
    was.
   */
  lemma FirstEntryWakes(s: State, entries: seq<EventLoop.Entry>, reports: seq<EventLoop.Report>, oks: seq<bool>,
      f: nat)
    requires Inv(s) && |entries| == |reports| == |oks| && InTable(s.io, entries) && Batches.Distinct(entries, 0)
    requires EventLoop.Rounds(s.io, entries, reports, 0, oks).Done? && InWait(s, f)
    requires entries != [] && entries[0] == EventLoop.Fd(s.prog[f].call.fd) && oks[0]
    ensures var t := Handled(s, EventLoop.Rounds(s.io, entries, reports, 0, oks));
            if reports[0].err || EventLoop.Says(reports[0], s.prog[f].call.ev) then Woken(s, t, f)
            else Undisturbed(s, t, f)
  {
    hide InvBut, EventLoop.Rounds, Handled, Woken, Undisturbed, EventLoop.Widen, Batches.Leftover;
    var c := s.prog[f].call;
    WaitFacts(s, f);
    BatchWakesExactly(s, entries, reports, oks, f);
    EventLoop.WidenExact(reports[0], s.io.ctxs[c.fd].events, c.ev);
    assert forall j :: 1 <= j < |entries| ==> entries[j] != entries[0];
  }

  /**
    A waiting call whose descriptor comes later is woken exactly by what entry 0 is left with: the registered events
    it did not report, or, when nobody was handed over for it, the bits it reported.
   */
  lemma LaterEntryWakes(s: State, entries: seq<EventLoop.Entry>, reports: seq<EventLoop.Report>, oks: seq<bool>,
      f: nat, j: nat)
    requires Inv(s) && |entries| == |reports| == |oks| && InTable(s.io, entries) && Batches.Distinct(entries, 0)
    requires EventLoop.Rounds(s.io, entries, reports, 0, oks).Done? && InWait(s, f)
    requires 1 <= j < |entries| && entries[j] == EventLoop.Fd(s.prog[f].call.fd) && oks[j]
    ensures var t := Handled(s, EventLoop.Rounds(s.io, entries, reports, 0, oks));
            var b, e := reports[0], s.prog[f].call.ev;
            var took := entries[0].Fd? && var c := s.io.ctxs[entries[0].fd];
                                          EventLoop.Wanted(c, b, READ) || EventLoop.Wanted(c, b, WRITE);
            if (if took then s.io.ctxs[entries[0].fd].events.Has(e) && !b.err && !EventLoop.Says(b, e)
                else EventLoop.Says(b, e))
            then Woken(s, t, f) else Undisturbed(s, t, f)
  {
    hide InvBut, EventLoop.Rounds, Handled, Woken, Undisturbed, Batches.Own, Batches.Leftover;
    assert entries[0] != entries[j];
    Batches.LeftoverExact(s.io, entries[0], reports[0], s.prog[f].call.ev);
    BatchWakesExactly(s, entries, reports, oks, f);
  }

  /**
    A waiting call whose event was reported, as a later entry of the batch, is missed exactly if entry 0 was left
    without that event.
   */
  lemma MissedExactly(s: State, entries: seq<EventLoop.Entry>, reports: seq<EventLoop.Report>, oks: seq<bool>,
      f: nat, j: nat)
    requires Inv(s) && |entries| == |reports| == |oks| && InTable(s.io, entries) && Batches.Distinct(entries, 0)
    requires EventLoop.Rounds(s.io, entries, reports, 0, oks).Done? && InWait(s, f)
    requires 1 <= j < |entries| && entries[j] == EventLoop.Fd(s.prog[f].call.fd) && oks[j]
    requires Batches.Own(s.io, entries[j], reports[j]).Has(s.prog[f].call.ev)
    ensures var t := Handled(s, EventLoop.Rounds(s.io, entries, reports, 0, oks));
            InWait(t, f) <==> !Batches.Leftover(s.io, entries[0], reports[0]).Has(s.prog[f].call.ev)
  {
    hide InvBut, EventLoop.Rounds, Batches.Leftover, Batches.Own, Deliver, Times;
    assert entries[0] != entries[j];
    BatchWakesExactly(s, entries, reports, oks, f);
  }
}
