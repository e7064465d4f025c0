/** How hooked calls go on and end: by a successful attempt, a failed registration, a timeout, or a connection made. */
module RuntimeCalls {
  import opened Options
  import opened Tasks
  import Sched
  import Timers
  import Events
  import opened Runtime
  import opened RuntimeWakes

  // ----- one step

  /** Fiber `f` is in the call with record `i`. */
  predicate InCall(s: State, f: nat, i: nat)
  {
    f in s.prog && s.prog[f].Io? && s.prog[f].call.info == i
  }

  /** The step is one of fiber `f`'s own, in code. */
  predicate Own(s: State, a: Action, f: nat)
  {
    (a.Attempt? || a.SetTimer? || a.Register? || a.GiveUp? || a.Park? || a.Wakened? || a.Check?) &&
    a.w < |s.sched.workers| && s.sched.workers[a.w].pc.Running? && s.sched.workers[a.w].pc.f == f
  }

  /** It attempts its system call, and that no longer blocks. */
  predicate Succeeds(s: State, a: Action, f: nat)
  {
    Own(s, a, f) && a.Attempt? && !a.again
  }

  /** It could not register, and gives up. */
  predicate Fails(s: State, a: Action, f: nat)
  {
    Own(s, a, f) && a.GiveUp?
  }

  /** It looks at its record after a wait and finds that it has timed out. */
  predicate TimesOut(s: State, a: Action, f: nat)
    requires f in s.prog && s.prog[f].Io?
  {
    Own(s, a, f) && a.Check? && s.prog[f].call.cancelled
  }

  /** A connect looks at its record after its wait and has not timed out. */
  predicate Connects(s: State, a: Action, f: nat)
    requires f in s.prog && s.prog[f].Io?
  {
    Own(s, a, f) && a.Check? && s.prog[f].call.connect && !s.prog[f].call.cancelled
  }

  predicate Ends(s: State, a: Action, f: nat)
    requires f in s.prog && s.prog[f].Io?
  {
    Succeeds(s, a, f) || Fails(s, a, f) || TimesOut(s, a, f) || Connects(s, a, f)
  }

  /** A worker runs the live timeout callback of this call, for the first time. */
  predicate Marks(s: State, a: Action, f: nat)
    requires f in s.prog && s.prog[f].Io?
  {
    a.RunTimer? && a.w < |s.sched.workers| && s.sched.workers[a.w].pc.Running? &&
    s.sched.workers[a.w].pc.e.task.CallTask? &&
    var cb := s.sched.workers[a.w].pc.e.task.cb;
    cb.IoTimeout? && cb.fiber == f && cb.info == s.prog[f].call.info
  }

  /** What a call keeps and how its marks change in a step that does not end it. */
  predicate GoesOn(s: State, a: Action, f: nat, c': Call)
    requires f in s.prog && s.prog[f].Io?
  {
    var c := s.prog[f].call;
    && c'.info == c.info && c'.fd == c.fd && c'.ev == c.ev && c'.timeout == c.timeout && c'.connect == c.connect
    && (c'.cancelled <==> c.cancelled || Marks(s, a, f))
    && c'.first == (if c.first.None? && Own(s, a, f) && a.SetTimer? && c.timeout.Some? then Some(s.clock) else c.first)
  }

  lemma StaysInCall(s: State, a: Action, f: nat)
    requires Sound(s) && Enabled(s, a) && f in s.prog && s.prog[f].Io? && !Own(s, a, f) && !a.RunTimer?
    ensures f in Next(s, a).prog && Next(s, a).prog[f] == s.prog[f]
  {
    hide Sched.YieldStep, Deliver, Timers.Inv, Timers.AddTimer, Timers.Cancel, Events.AddEvent, Events.CancelEvent,
      Timers.ListExpired, Events.Dispatch, Events.CancelAll, Events.DelEvent, Timers.Refresh, Timers.Reset, Sched.Next,
      Sched.Enabled;
  }

  lemma MarkedCall(s: State, w: nat, ok: bool, f: nat)
    requires Sound(s) && Enabled(s, RunTimer(w, ok)) && f in s.prog && s.prog[f].Io?
    ensures var t := Next(s, RunTimer(w, ok));
            && f in t.prog && t.prog[f].Io? && t.prog[f].at == s.prog[f].at
            && t.prog[f].call == s.prog[f].call.(cancelled := s.prog[f].call.cancelled || Marks(s, RunTimer(w, ok), f))
  {
    hide Sched.YieldStep, Deliver, Events.CancelEvent, Timers.Inv;
  }

  lemma OwnStep(s: State, a: Action, f: nat)
    requires Sound(s) && Enabled(s, a) && f in s.prog && s.prog[f].Io? && Own(s, a, f)
    ensures var t := Next(s, a);
            && (f !in t.prog <==> Ends(s, a, f))
            && (f in t.prog ==> t.prog[f].Io? && GoesOn(s, a, f, t.prog[f].call))
            && (a.Check? && f in t.prog ==> t.prog[f] == Io(s.prog[f].call, Try))
            && (a.Attempt? && f in t.prog ==> t.prog[f] == Io(s.prog[f].call, Arming))
  {
    hide Sched.YieldStep, Timers.Inv, Timers.AddTimer, Timers.Cancel, Events.AddEvent;
  }

  /**
    For every step and every fiber in a call: the call is over afterwards exactly if the step is its successful
    attempt, its giving up, or its look at the record when it has timed out or is a connect; otherwise it is the same
    call, marked as timed out exactly if it was or its timeout callback ran.  After any other look at the record it is
    about to try again.
   */
  lemma CallEndsExactly(s: State, a: Action, f: nat)
    requires Sound(s) && Enabled(s, a) && f in s.prog && s.prog[f].Io?
    ensures var t := Next(s, a);
            && (f !in t.prog <==> Ends(s, a, f))
            && (f in t.prog ==> t.prog[f].Io? && GoesOn(s, a, f, t.prog[f].call))
            && (Own(s, a, f) && a.Check? && f in t.prog ==> t.prog[f] == Io(s.prog[f].call, Try))
  {
    hide Next, Enabled, Sound;
    if Own(s, a, f) {
      OwnStep(s, a, f);
    } else if a.RunTimer? {
      MarkedCall(s, a.w, a.ok, f);
    } else {
      StaysInCall(s, a, f);
    }
  }

  /** A sleep is over exactly by its own last step. */
  lemma SleepEndsExactly(s: State, a: Action, f: nat)
    requires Sound(s) && Enabled(s, a) && f in s.prog && s.prog[f].Sleep?
    ensures f !in Next(s, a).prog <==> a.EndSleep? && s.sched.workers[a.w].pc.f == f
    ensures f in Next(s, a).prog ==> Next(s, a).prog[f].Sleep? && Next(s, a).prog[f].timer == s.prog[f].timer
  {
    hide Sched.YieldStep, Deliver, Timers.Inv, Timers.AddTimer, Timers.Cancel, Events.AddEvent, Events.CancelEvent,
      Timers.ListExpired, Events.Dispatch, Events.CancelAll, Events.DelEvent, Timers.Refresh, Timers.Reset, Sched.Next,
      Sched.Enabled;
  }

  // ----- over runs

  /** A step happens. */
  predicate Happens(s: State, a: Action)
  {
    Sound(s) && Enabled(s, a)
  }

  /** Fiber `f` makes an attempt on the way, in its call. */
  predicate TriesAgain(s: State, acts: seq<Action>, f: nat, i: nat)
    decreases |acts|
  {
    acts != [] && InCall(s, f, i) &&
    ((Happens(s, acts[0]) && Own(s, acts[0], f) && acts[0].Attempt?) || TriesAgain(Step(s, acts[0]), acts[1..], f, i))
  }

  datatype How = Success | Failure | Timeout | Connected

  /** The first step that ends the call is of this kind. */
  predicate EndsBy(s: State, acts: seq<Action>, f: nat, i: nat, how: How)
    decreases |acts|
  {
    acts != [] && InCall(s, f, i) &&
    if Happens(s, acts[0]) && Ends(s, acts[0], f)
    then match how
         case Success => Succeeds(s, acts[0], f)
         case Failure => Fails(s, acts[0], f)
         case Timeout => TimesOut(s, acts[0], f)
         case Connected => Connects(s, acts[0], f)
    else EndsBy(Step(s, acts[0]), acts[1..], f, i, how)
  }

  predicate Ended(s: State, acts: seq<Action>, f: nat, i: nat)
  {
    || EndsBy(s, acts, f, i, Success) || EndsBy(s, acts, f, i, Failure) || EndsBy(s, acts, f, i, Timeout)
    || EndsBy(s, acts, f, i, Connected)
  }

  /** A record that is gone stays gone, so being out of the call means that it has ended. */
  lemma StaysOver(s: State, acts: seq<Action>, f: nat, i: nat)
    requires i < s.infos && !InCall(s, f, i)
    ensures !InCall(Run(s, acts), f, i)
  {
    hide Run;
    StaysDead(s, acts, IoTimeout(f, i, 0, READ));
  }

  lemma StillIn(s: State, a: Action, f: nat, i: nat)
    requires InCall(s, f, i) && i < s.infos
    ensures i < Step(s, a).infos
    ensures InCall(Step(s, a), f, i) <==> !(Happens(s, a) && Ends(s, a, f))
    ensures InCall(Step(s, a), f, i) ==>
              Step(s, a).prog[f].call.connect == s.prog[f].call.connect
  {
    hide Next, Enabled, Sound, Ends;
    if Happens(s, a) {
      CallEndsExactly(s, a, f);
      RecordsAreNew(s, a, f);
    }
  }

  /** A call that is over at the end of a run ended in it, in one of the four ways, the last only for a connect. */
  lemma {:induction false} HowItEnds(s: State, acts: seq<Action>, f: nat, i: nat)
    requires InCall(s, f, i) && i < s.infos
    ensures !InCall(Run(s, acts), f, i) <==> Ended(s, acts, f, i)
    ensures !s.prog[f].call.connect ==> !EndsBy(s, acts, f, i, Connected)
    decreases |acts|
  {
    hide Step, Ends, Happens;
    if acts != [] {
      StillIn(s, acts[0], f, i);
      if Happens(s, acts[0]) && Ends(s, acts[0], f) {
        StaysOver(Step(s, acts[0]), acts[1..], f, i);
        EndKind(s, acts, f, i);
      } else {
        HowItEnds(Step(s, acts[0]), acts[1..], f, i);
        SameEnd(s, acts, f, i);
      }
    }
  }

  lemma SameEnd(s: State, acts: seq<Action>, f: nat, i: nat)
    requires acts != [] && InCall(s, f, i) && !(Happens(s, acts[0]) && Ends(s, acts[0], f))
    ensures Ended(s, acts, f, i) <==> Ended(Step(s, acts[0]), acts[1..], f, i)
    ensures EndsBy(s, acts, f, i, Connected) <==> EndsBy(Step(s, acts[0]), acts[1..], f, i, Connected)
  {
    hide Step, Ends, Happens;
  }

  lemma EndKind(s: State, acts: seq<Action>, f: nat, i: nat)
    requires acts != [] && InCall(s, f, i) && Happens(s, acts[0]) && Ends(s, acts[0], f)
    ensures Ended(s, acts, f, i)
    ensures !s.prog[f].call.connect ==> !EndsBy(s, acts, f, i, Connected)
  {
    hide Step, Happens;
  }

  /** The stages from having registered to the next attempt. */
  predicate AfterWait(at: Stage)
  {
    at == Yielding || at == Parked || at == Checking || at == Try
  }

  lemma AfterWaitStep(s: State, a: Action, f: nat, i: nat)
    requires InCall(s, f, i) && AfterWait(s.prog[f].at) && !s.prog[f].call.connect && Happens(s, a)
    ensures !Fails(s, a, f)
    ensures InCall(Step(s, a), f, i) && !(Own(s, a, f) && a.Attempt?) ==> AfterWait(Step(s, a).prog[f].at)
  {
    hide Next, Sound;
    if Own(s, a, f) {
      OwnStage(s, a, f);
    } else if a.RunTimer? {
      MarkedCall(s, a.w, a.ok, f);
    } else {
      StaysInCall(s, a, f);
    }
  }

  lemma OwnStage(s: State, a: Action, f: nat)
    requires Sound(s) && Enabled(s, a) && f in s.prog && s.prog[f].Io? && Own(s, a, f) && AfterWait(s.prog[f].at)
    ensures a.Attempt? || a.Check? || a.Park? || a.Wakened?
    ensures !a.Attempt? && f in Next(s, a).prog ==> AfterWait(Next(s, a).prog[f].at)
  {
    hide Sched.YieldStep, Timers.Inv, Timers.Cancel;
  }

  /**
    A call other than a connect that has registered, or been woken, and is over at the end of the run, has made another
    attempt since, or has timed out: it does not end on being woken alone, nor fail to register without trying first.
   */
  lemma {:induction false} WokenTriesAgain(s: State, acts: seq<Action>, f: nat, i: nat)
    requires InCall(s, f, i) && i < s.infos && AfterWait(s.prog[f].at) && !s.prog[f].call.connect
    requires !InCall(Run(s, acts), f, i)
    ensures TriesAgain(s, acts, f, i) || EndsBy(s, acts, f, i, Timeout)
    decreases |acts|
  {
    hide Step, AfterWait, Happens;
    StillIn(s, acts[0], f, i);
    if Happens(s, acts[0]) {
      AfterWaitStep(s, acts[0], f, i);
    } else {
      Stands(s, acts[0]);
    }
    if InCall(Step(s, acts[0]), f, i) && !(Happens(s, acts[0]) && Own(s, acts[0], f) && acts[0].Attempt?) {
      WokenTriesAgain(Step(s, acts[0]), acts[1..], f, i);
    }
  }

  lemma Stands(s: State, a: Action)
    requires !Happens(s, a)
    ensures Step(s, a) == s
  {}

  /** A call that finds itself timed out makes no other attempt: it stands at its record, or has reported it. */
  lemma {:induction false} TimedOutIsReported(s: State, acts: seq<Action>, f: nat, i: nat)
    requires InCall(s, f, i) && i < s.infos && s.prog[f].at == Checking && s.prog[f].call.cancelled
    ensures !TriesAgain(s, acts, f, i)
    ensures if InCall(Run(s, acts), f, i) then Run(s, acts).prog[f] == s.prog[f] else EndsBy(s, acts, f, i, Timeout)
    decreases |acts|
  {
    hide Step, Happens;
    if acts != [] {
      StillIn(s, acts[0], f, i);
      if Happens(s, acts[0]) {
        ToldStep(s, acts[0], f);
      } else {
        Stands(s, acts[0]);
      }
      if InCall(Step(s, acts[0]), f, i) {
        TimedOutIsReported(Step(s, acts[0]), acts[1..], f, i);
      } else {
        StaysOver(Step(s, acts[0]), acts[1..], f, i);
        NoMoreTries(Step(s, acts[0]), acts[1..], f, i);
      }
    }
  }

  lemma NoMoreTries(s: State, acts: seq<Action>, f: nat, i: nat)
    requires !InCall(s, f, i)
    ensures !TriesAgain(s, acts, f, i)
  {}

  lemma ToldStep(s: State, a: Action, f: nat)
    requires Happens(s, a) && f in s.prog && s.prog[f].Io? && s.prog[f].at == Checking && s.prog[f].call.cancelled
    ensures !(Own(s, a, f) && a.Attempt?)
    ensures f in Step(s, a).prog ==> Step(s, a).prog[f] == s.prog[f]
    ensures f !in Step(s, a).prog ==> TimesOut(s, a, f)
  {
    hide Next, Sound;
    if Own(s, a, f) {
      OwnStep(s, a, f);
    } else if a.RunTimer? {
      MarkedCall(s, a.w, a.ok, f);
    } else {
      StaysInCall(s, a, f);
    }
  }

  lemma FailedStep(s: State, a: Action, f: nat)
    requires Happens(s, a) && f in s.prog && s.prog[f].Io? && s.prog[f].at == Failing
    ensures !(Own(s, a, f) && a.Attempt?)
    ensures f in Step(s, a).prog ==> Step(s, a).prog[f].at == Failing && InCall(Step(s, a), f, s.prog[f].call.info)
    ensures f !in Step(s, a).prog ==> Fails(s, a, f)
  {
    hide Next, Sound;
    if Own(s, a, f) {
      OwnStep(s, a, f);
    } else if a.RunTimer? {
      MarkedCall(s, a.w, a.ok, f);
    } else {
      StaysInCall(s, a, f);
    }
  }

  lemma {:induction false} FailureIsReported(s: State, acts: seq<Action>, f: nat, i: nat)
    requires InCall(s, f, i) && i < s.infos && s.prog[f].at == Failing
    ensures !TriesAgain(s, acts, f, i)
    ensures if InCall(Run(s, acts), f, i) then Run(s, acts).prog[f].at == Failing else EndsBy(s, acts, f, i, Failure)
    decreases |acts|
  {
    hide Step, Happens;
    if acts != [] {
      StillIn(s, acts[0], f, i);
      if Happens(s, acts[0]) {
        FailedStep(s, acts[0], f);
      } else {
        Stands(s, acts[0]);
      }
      if InCall(Step(s, acts[0]), f, i) {
        FailureIsReported(Step(s, acts[0]), acts[1..], f, i);
      } else {
        StaysOver(Step(s, acts[0]), acts[1..], f, i);
        NoMoreTries(Step(s, acts[0]), acts[1..], f, i);
      }
    }
  }

  lemma Refused(s: State, w: nat)
    requires Sound(s) && Enabled(s, Register(w, false))
    ensures var t, f := Next(s, Register(w, false)), s.sched.workers[w].pc.f;
            f in t.prog && t.prog[f] == Io(s.prog[f].call, Failing) && t.infos == s.infos
  {
    hide Events.AddEvent, Timers.Inv;
  }

  /** A call whose registration is refused makes no other attempt: it ends by failing. */
  lemma RefusedFails(s: State, w: nat, acts: seq<Action>)
    requires Sound(s) && Enabled(s, Register(w, false))
    requires s.prog[s.sched.workers[w].pc.f].call.info < s.infos
    ensures var f, t := s.sched.workers[w].pc.f, Next(s, Register(w, false));
            var i := s.prog[f].call.info;
            && !TriesAgain(t, acts, f, i)
            && if InCall(Run(t, acts), f, i) then Run(t, acts).prog[f].at == Failing else EndsBy(t, acts, f, i, Failure)
  {
    hide Next, Run, Sound, TriesAgain, EndsBy;
    var f := s.sched.workers[w].pc.f;
    Refused(s, w);
    FailureIsReported(Next(s, Register(w, false)), acts, f, s.prog[f].call.info);
  }

  // ----- from beginning to end

  /** A call just begun is about to try, with the arguments it was made with, no mark and no wait behind it. */
  lemma Begun(s: State, w: nat, fd: nat, ev: Event, timeout: Option<nat>, connect: bool)
    requires Sound(s) && Outside(s, w)
    ensures var t, f := Next(s, BeginIo(w, fd, ev, timeout, connect)), s.sched.workers[w].pc.f;
            && InCall(t, f, s.infos) && s.infos < t.infos && t.prog[f].at == Try
            && t.prog[f].call.fd == fd && t.prog[f].call.ev == ev && t.prog[f].call.timeout == timeout
            && t.prog[f].call.connect == connect && !t.prog[f].call.cancelled && t.prog[f].call.first.None?
  {
    hide Sound;
  }

  lemma {:induction false} SameArguments(s: State, acts: seq<Action>, f: nat, i: nat)
    requires InCall(s, f, i) && i < s.infos && InCall(Run(s, acts), f, i)
    ensures var c, d := s.prog[f].call, Run(s, acts).prog[f].call;
            d.fd == c.fd && d.ev == c.ev && d.timeout == c.timeout && d.connect == c.connect
    decreases |acts|
  {
    hide Next, Enabled, Sound, Ends;
    if acts != [] {
      StillIn(s, acts[0], f, i);
      if !InCall(Step(s, acts[0]), f, i) {
        StaysOver(Step(s, acts[0]), acts[1..], f, i);
      }
      if Happens(s, acts[0]) {
        CallEndsExactly(s, acts[0], f);
      }
      SameArguments(Step(s, acts[0]), acts[1..], f, i);
    }
  }

  /**
    From a call's beginning on, in every run: as long as it lasts it waits for the descriptor, event and time it was
    made with; and it is over exactly if one of the four steps has ended it, a connection made only for a connect.
   */
  lemma CallFromBeginning(s: State, w: nat, fd: nat, ev: Event, timeout: Option<nat>, connect: bool, acts: seq<Action>)
    requires Sound(s) && Outside(s, w)
    ensures var s1, f, i := Next(s, BeginIo(w, fd, ev, timeout, connect)), s.sched.workers[w].pc.f, s.infos;
            && (InCall(Run(s1, acts), f, i) ==>
                  var c := Run(s1, acts).prog[f].call;
                  c.fd == fd && c.ev == ev && c.timeout == timeout && c.connect == connect)
            && (!InCall(Run(s1, acts), f, i) <==> Ended(s1, acts, f, i))
            && (!connect ==> !EndsBy(s1, acts, f, i, Connected))
  {
    hide Next, Run, EndsBy, Sound;
    var s1, f, i := Next(s, BeginIo(w, fd, ev, timeout, connect)), s.sched.workers[w].pc.f, s.infos;
    Begun(s, w, fd, ev, timeout, connect);
    HowItEnds(s1, acts, f, i);
    if InCall(Run(s1, acts), f, i) {
      SameArguments(s1, acts, f, i);
    }
  }
}
