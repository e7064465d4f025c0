/** A whole batch of reports: what the poller makes of it, and when that is what was reported. */
module Batches {
  import opened Tasks
  import opened Events
  import opened EventLoop

  /** Entry by entry from `i` on, each descriptor with the bits given for it. */
  function Each(s: State, entries: seq<Entry>, i: nat, bits: seq<Mask>, oks: seq<bool>): (r: Outcome)
    requires |entries| == |bits| == |oks| && i <= |entries|
    requires forall j :: i <= j < |entries| && entries[j].Fd? ==> entries[j].fd < |s.ctxs|
    ensures r.Handled? ==> |r.s.ctxs| == |s.ctxs|
    decreases |entries| - i
  {
    if i == |entries| then Handled(s, []) else
      if entries[i].Pipe? then Each(s, entries, i + 1, bits, oks) else
        match Dispatch(s, entries[i].fd, bits[i], oks[i])
        case Aborts => Aborts
        case Handled(s1, t1) =>
          match Each(s1, entries, i + 1, bits, oks)
          case Aborts => Aborts
          case Handled(s2, t2) => Handled(s2, t1 + t2)
  }

  /** What an entry reported about its descriptor, hang-ups and errors widened to what is registered. */
  function Own(s: State, entry: Entry, report: Report): Mask
    requires entry.Fd? ==> entry.fd < |s.ctxs|
  {
    if entry.Pipe? then Ready(report) else Ready(Widen(report, s.ctxs[entry.fd].events))
  }

  function AsReported(s: State, entries: seq<Entry>, reports: seq<Report>): (bits: seq<Mask>)
    requires |entries| == |reports|
    requires forall j :: 0 <= j < |entries| && entries[j].Fd? ==> entries[j].fd < |s.ctxs|
    ensures |bits| == |entries|
  {
    seq(|entries|, j requires 0 <= j < |entries| => Own(s, entries[j], reports[j]))
  }

  /**
    What entry 0 holds once it has been handled: the wake pipe's bits as they are; a descriptor's registered bits
    that were not reported, or, when nothing reported was registered, what was reported.
   */
  function Leftover(s: State, entry: Entry, report: Report): Mask
    requires entry.Fd? ==> entry.fd < |s.ctxs|
  {
    var own := Own(s, entry, report);
    if entry.Pipe? || s.ctxs[entry.fd].events.Meet(own).None() then own else s.ctxs[entry.fd].events.Minus(own)
  }

  /**
    On the bits themselves: an entry some waiter of which was handed over keeps what is registered and was neither
    reported nor covered by an error; any other keeps what it reported.
   */
  lemma LeftoverExact(s: State, entry: Entry, report: Report, e: Event)
    requires entry.Fd? ==> entry.fd < |s.ctxs|
    ensures Leftover(s, entry, report).Has(e) <==>
              if entry.Fd? && (Wanted(s.ctxs[entry.fd], report, READ) || Wanted(s.ctxs[entry.fd], report, WRITE))
              then s.ctxs[entry.fd].events.Has(e) && !report.err && !Says(report, e)
              else Says(report, e)
  {}

  /** The bits the loop uses: entry 0's own, then for every later entry what entry 0 was left with. */
  function AsRead(s: State, entries: seq<Entry>, reports: seq<Report>): (bits: seq<Mask>)
    requires |entries| == |reports|
    requires forall j :: 0 <= j < |entries| && entries[j].Fd? ==> entries[j].fd < |s.ctxs|
    ensures |bits| == |entries|
  {
    seq(|entries|, j requires 0 <= j < |entries| =>
      if j == 0 then Own(s, entries[0], reports[0]) else Leftover(s, entries[0], reports[0]))
  }

  /** A batch and a handled sequence of dispatches come to the same. */
  predicate Agree(b: Batch, o: Outcome)
  {
    match b
    case Stopped => o.Aborts?
    case Done(s, _, tasks) => o == Handled(s, tasks)
  }

  // ----- the loop in closed form

  /** From the second round on the first report never changes, so every entry is handled with its bits. */
  lemma {:induction false} LaterRounds(
    s: State, entries: seq<Entry>, reports: seq<Report>, i: nat, bits: seq<Mask>, oks: seq<bool>)
    requires |entries| == |reports| == |bits| == |oks| && 1 <= i <= |entries|
    requires forall j :: 0 <= j < |entries| && entries[j].Fd? ==> entries[j].fd < |s.ctxs|
    requires forall j :: i <= j < |bits| ==> bits[j] == Ready(reports[0])
    ensures Agree(Rounds(s, entries, reports, i, oks), Each(s, entries, i, bits, oks))
    decreases |entries| - i
  {
    if i < |entries| {
      var one := One(s, entries[i], reports, i, oks[i]);
      if one.Done? {
        assert one.reports[0] == reports[0];
        LaterRounds(one.s, entries, one.reports, i + 1, bits, oks);
        var rest := Rounds(one.s, entries, one.reports, i + 1, oks);
        assert rest.Done? ==> [] + rest.tasks == rest.tasks;
      }
    }
  }

  /** The first round handles entry 0 as reported and leaves it with the rest. */
  lemma FirstRound(s: State, entry: Entry, reports: seq<Report>, ok: bool)
    requires reports != [] && (entry.Fd? ==> entry.fd < |s.ctxs|)
    ensures var one := One(s, entry, reports, 0, ok);
            && (entry.Pipe? ==> one == Done(s, reports, []))
            && (entry.Fd? ==> Agree(one, Dispatch(s, entry.fd, Own(s, entry, reports[0]), ok)))
            && (one.Done? ==> Ready(one.reports[0]) == Leftover(s, entry, reports[0]))
  {}

  /** The whole loop: entry 0 with its own bits, all others with what entry 0 was left with. */
  lemma RoundsClosed(s: State, entries: seq<Entry>, reports: seq<Report>, oks: seq<bool>)
    requires |entries| == |reports| == |oks|
    requires forall j :: 0 <= j < |entries| && entries[j].Fd? ==> entries[j].fd < |s.ctxs|
    ensures Agree(Rounds(s, entries, reports, 0, oks), Each(s, entries, 0, AsRead(s, entries, reports), oks))
  {
    hide Own, Leftover, One, Dispatch;
    if entries != [] {
      var bits := AsRead(s, entries, reports);
      var one := One(s, entries[0], reports, 0, oks[0]);
      FirstRound(s, entries[0], reports, oks[0]);
      if one.Done? {
        LaterRounds(one.s, entries, one.reports, 1, bits, oks);
        var rest := Rounds(one.s, entries, one.reports, 1, oks);
        assert rest.Done? ==> [] + rest.tasks == rest.tasks;
      }
    }
  }

  // ----- when that is what was reported

  predicate Distinct(entries: seq<Entry>, i: nat)
  {
    forall j, k :: i <= j < k < |entries| && entries[j].Fd? ==> entries[j] != entries[k]
  }

  /** Bits `x` and `y` come to the same on a descriptor with these registered. */
  predicate Same(m: Mask, x: Mask, y: Mask)
  {
    x == y || (y.None() && m.Meet(x).None())
  }

  lemma DispatchOther(s: State, fd: nat, x: Mask, ok: bool, g: nat)
    requires fd < |s.ctxs| && g < |s.ctxs| && g != fd
    ensures var o := Dispatch(s, fd, x, ok); o.Handled? ==> |o.s.ctxs| == |s.ctxs| && o.s.ctxs[g] == s.ctxs[g]
  {}

  /** A descriptor that is no longer in the batch keeps its context. */
  lemma {:induction false} EachLeaves(s: State, entries: seq<Entry>, i: nat, bits: seq<Mask>, oks: seq<bool>, g: nat)
    requires |entries| == |bits| == |oks| && i <= |entries| && g < |s.ctxs|
    requires forall j :: i <= j < |entries| && entries[j].Fd? ==> entries[j].fd < |s.ctxs| && entries[j].fd != g
    ensures var o := Each(s, entries, i, bits, oks); o.Handled? ==> o.s.ctxs[g] == s.ctxs[g]
    decreases |entries| - i
  {
    if i < |entries| {
      if entries[i].Pipe? {
        EachLeaves(s, entries, i + 1, bits, oks, g);
      } else {
        DispatchOther(s, entries[i].fd, bits[i], oks[i], g);
        var o := Dispatch(s, entries[i].fd, bits[i], oks[i]);
        if o.Handled? {
          EachLeaves(o.s, entries, i + 1, bits, oks, g);
        }
      }
    }
  }

  /** Handling a descriptor with other bits than reported shows in its context, or stops the program. */
  lemma DispatchDiffers(s: State, fd: nat, x: Mask, y: Mask)
    requires Inv(s) && fd < |s.ctxs| && y.Minus(s.ctxs[fd].events).None()
    ensures Dispatch(s, fd, y, true).Handled?
    ensures Same(s.ctxs[fd].events, x, y) <==> Dispatch(s, fd, x, true) == Dispatch(s, fd, y, true)
    ensures var o, p := Dispatch(s, fd, x, true), Dispatch(s, fd, y, true);
            !Same(s.ctxs[fd].events, x, y) && o.Handled? ==> o.s.ctxs[fd] != p.s.ctxs[fd]
  {
    var m := s.ctxs[fd].events;
    DispatchKeeps(s, fd, x, true);
    DispatchKeeps(s, fd, y, true);
    if !m.Meet(y).None() {
      TriggerAllExact(s.ctxs[fd], y);
      assert Dispatch(s, fd, y, true).s.ctxs[fd].events == m.Minus(y);
    }
    if !m.Meet(x).None() && x.Minus(m).None() {
      TriggerAllExact(s.ctxs[fd], x);
      assert Dispatch(s, fd, x, true).s.ctxs[fd].events == m.Minus(x);
    }
  }

  /** The batch from `i` on is honest: it names descriptors once, and reports what is registered. */
  predicate Honest(s: State, entries: seq<Entry>, i: nat, bits: seq<Mask>)
  {
    && |entries| == |bits| && i <= |entries| && Distinct(entries, i)
    && (forall j :: i <= j < |entries| && entries[j].Fd? ==>
          entries[j].fd < |s.ctxs| && bits[j].Minus(s.ctxs[entries[j].fd].events).None())
  }

  predicate AllSame(s: State, entries: seq<Entry>, i: nat, x: seq<Mask>, y: seq<Mask>, oks: seq<bool>)
    requires |entries| == |x| == |y| == |oks|
    requires forall j :: i <= j < |entries| && entries[j].Fd? ==> entries[j].fd < |s.ctxs|
  {
    forall j :: i <= j < |entries| && entries[j].Fd? && oks[j] ==> Same(s.ctxs[entries[j].fd].events, x[j], y[j])
  }

  lemma HonestNext(s: State, entries: seq<Entry>, i: nat, x: seq<Mask>, y: seq<Mask>, oks: seq<bool>)
    requires Inv(s) && Honest(s, entries, i, y) && |x| == |y| == |oks| && i < |entries| && entries[i].Fd?
    ensures Dispatch(s, entries[i].fd, y[i], oks[i]).Handled?
    ensures var s1 := Dispatch(s, entries[i].fd, y[i], oks[i]).s;
            && Inv(s1) && Honest(s1, entries, i + 1, y)
            && (AllSame(s, entries, i + 1, x, y, oks) <==> AllSame(s1, entries, i + 1, x, y, oks))
  {
    var fd := entries[i].fd;
    DispatchKeeps(s, fd, y[i], oks[i]);
    var s1 := Dispatch(s, fd, y[i], oks[i]).s;
    forall j | i < j < |entries| && entries[j].Fd? ensures s1.ctxs[entries[j].fd] == s.ctxs[entries[j].fd] {
      DispatchOther(s, fd, y[i], oks[i], entries[j].fd);
    }
  }

  lemma {:induction false} HonestHandled(s: State, entries: seq<Entry>, i: nat, y: seq<Mask>, oks: seq<bool>)
    requires Inv(s) && Honest(s, entries, i, y) && |oks| == |y|
    ensures Each(s, entries, i, y, oks).Handled?
    decreases |entries| - i
  {
    if i < |entries| {
      if entries[i].Pipe? {
        HonestHandled(s, entries, i + 1, y, oks);
      } else {
        HonestNext(s, entries, i, y, y, oks);
        HonestHandled(Dispatch(s, entries[i].fd, y[i], oks[i]).s, entries, i + 1, y, oks);
      }
    }
  }

  lemma {:induction false} EachSameExactly(
    s: State, entries: seq<Entry>, i: nat, x: seq<Mask>, y: seq<Mask>, oks: seq<bool>)
    requires Inv(s) && Honest(s, entries, i, y) && |x| == |y| == |oks|
    ensures Each(s, entries, i, x, oks) == Each(s, entries, i, y, oks) <==> AllSame(s, entries, i, x, y, oks)
    decreases |entries| - i
  {
    hide Inv, Dispatch, Same;
    if i < |entries| {
      if entries[i].Pipe? {
        EachSameExactly(s, entries, i + 1, x, y, oks);
      } else {
        var fd := entries[i].fd;
        HonestNext(s, entries, i, x, y, oks);
        DispatchDiffers(s, fd, x[i], y[i]);
        Refused(s, fd, x[i]);
        Refused(s, fd, y[i]);
        var o, p := Dispatch(s, fd, x[i], oks[i]), Dispatch(s, fd, y[i], oks[i]);
        HonestHandled(p.s, entries, i + 1, y, oks);
        if oks[i] && !Same(s.ctxs[fd].events, x[i], y[i]) {
          if o.Handled? {
            EachLeaves(o.s, entries, i + 1, x, oks, fd);
            EachLeaves(p.s, entries, i + 1, y, oks, fd);
          }
        } else {
          EachSameExactly(p.s, entries, i + 1, x, y, oks);
          SameTail(p.tasks, Each(p.s, entries, i + 1, x, oks), Each(p.s, entries, i + 1, y, oks));
        }
      }
    }
  }

  /** Where the kernel refuses nothing is handed over; in any case the vector keeps its length. */
  lemma Refused(s: State, fd: nat, x: Mask)
    requires fd < |s.ctxs|
    ensures Dispatch(s, fd, x, false) == Handled(s, [])
    ensures var o := Dispatch(s, fd, x, true); o.Handled? ==> |o.s.ctxs| == |s.ctxs|
  {}

  lemma SameTail(t: seq<Task>, o: Outcome, p: Outcome)
    ensures o.Handled? && p.Handled? && t + o.tasks == t + p.tasks ==> o.tasks == p.tasks
  {
    if o.Handled? && p.Handled? && t + o.tasks == t + p.tasks {
      assert (t + o.tasks)[|t|..] == o.tasks && (t + p.tasks)[|t|..] == p.tasks;
    }
  }

  /** The loop does what was reported. */
  ghost predicate IsRight(s: State, entries: seq<Entry>, reports: seq<Report>, oks: seq<bool>)
    requires |entries| == |reports| == |oks|
    requires forall j :: 0 <= j < |entries| && entries[j].Fd? ==> entries[j].fd < |s.ctxs|
  {
    Agree(Rounds(s, entries, reports, 0, oks), Each(s, entries, 0, AsReported(s, entries, reports), oks))
  }

  /**
    A batch of distinct descriptors that reports what is registered is handled as reported exactly if every later
    entry the kernel accepts reported just what entry 0 was left with, or reported nothing and has none of that
    registered.
   */
  lemma BatchIsRightExactly(s: State, entries: seq<Entry>, reports: seq<Report>, oks: seq<bool>)
    requires Inv(s) && |entries| == |reports| == |oks| && entries != []
    requires forall j :: 0 <= j < |entries| && entries[j].Fd? ==> entries[j].fd < |s.ctxs|
    requires Honest(s, entries, 0, AsReported(s, entries, reports))
    ensures IsRight(s, entries, reports, oks) <==>
              forall j :: 1 <= j < |entries| && entries[j].Fd? && oks[j] ==>
                Same(s.ctxs[entries[j].fd].events, Leftover(s, entries[0], reports[0]), Own(s, entries[j], reports[j]))
  {
    hide Inv, Each, Rounds, Same, Own, Leftover;
    var x, y := AsRead(s, entries, reports), AsReported(s, entries, reports);
    RoundsClosed(s, entries, reports, oks);
    EachSameExactly(s, entries, 0, x, y, oks);
    Reflexive(if entries[0].Fd? then s.ctxs[entries[0].fd].events else NONE, x[0]);
    assert forall j :: 1 <= j < |entries| ==>
             x[j] == Leftover(s, entries[0], reports[0]) && y[j] == Own(s, entries[j], reports[j]);
  }

  lemma Reflexive(m: Mask, x: Mask)
    ensures Same(m, x, x)
  {}

  /** With the wake pipe first, every later entry is taken to be readable, whatever it reported. */
  lemma PipeFirst(s: State, entries: seq<Entry>, reports: seq<Report>, oks: seq<bool>)
    requires Inv(s) && |entries| == |reports| == |oks| && entries != [] && entries[0] == Pipe
    requires forall j :: 0 <= j < |entries| && entries[j].Fd? ==> entries[j].fd < |s.ctxs|
    requires Honest(s, entries, 0, AsReported(s, entries, reports)) && Ready(reports[0]) == Mask(true, false)
    requires forall j :: 1 <= j < |entries| && entries[j].Fd? ==> !Own(s, entries[j], reports[j]).None()
    ensures IsRight(s, entries, reports, oks) <==>
              forall j :: 1 <= j < |entries| && entries[j].Fd? && oks[j] ==>
                Own(s, entries[j], reports[j]) == Mask(true, false)
  {
    hide Inv, IsRight, Honest;
    BatchIsRightExactly(s, entries, reports, oks);
  }
}
