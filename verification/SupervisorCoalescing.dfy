/**
  The coalescing drain: a request made during a drain folds into one owed rerun,
  gets its pass unless the drain is cancelled, and costs no more than that pass.
*/
module SupervisorCoalescing {
  import opened Wrappers
  import opened Supervisor
  import opened SupervisorSafety

  /** Calls of `drain` a step makes, and passes it puts on the chain. */
  predicate Requests(s: State, ev: Event) { ev.TickFires? || ev.NudgeFires? || (ev.Kick? && !s.paused) }

  ghost function RequestsIn(s: State, run: seq<Event>, interval: nat): nat
    requires Possible(s, run, interval)
    decreases |run|
  {
    if run == [] then 0
    else OneIf(Requests(s, run[0])) + RequestsIn(Step(s, run[0], interval), run[1..], interval)
  }

  function PassesAdded(s: State, ev: Event): nat
    requires Enabled(s, ev)
  {
    if Requests(s, ev) then OneIf(!s.engine.draining)
    else if ev.LoopLooks? then OneIf(s.engine.rerun && !s.paused && !s.engine.stopped)
    else 0
  }

  ghost function PassesIn(s: State, run: seq<Event>, interval: nat): nat
    requires Possible(s, run, interval)
    decreases |run|
  {
    if run == [] then 0
    else PassesAdded(s, run[0]) + PassesIn(Step(s, run[0], interval), run[1..], interval)
  }

  function OwedReruns(e: Engine): nat { OneIf(e.draining && e.rerun) }

  lemma PassesPaid(s: State, ev: Event, interval: nat)
    requires Inv(s, interval) && Enabled(s, ev)
    ensures PassesAdded(s, ev) + OwedReruns(Step(s, ev, interval).engine) <= OneIf(Requests(s, ev)) + OwedReruns(s.engine)
  {
    if Requests(s, ev) { RequestPays(s, ev, interval); } else { OthersOweNothing(s, ev, interval); }
  }

  lemma RequestPays(s: State, ev: Event, interval: nat)
    requires Enabled(s, ev) && Requests(s, ev)
    ensures OneIf(!s.engine.draining) + OwedReruns(Step(s, ev, interval).engine) <= 1 + OwedReruns(s.engine)
  {
    var e := s.engine;
    match ev
    case TickFires => ExchangeOwes(e, e.(ticks := e.ticks - 1));
    case NudgeFires => ExchangeOwes(e, ClearTick(e.(nudge := false)));
    case Kick => ExchangeOwes(e, ClearTick(e).(backoff := interval, fails := 0));
  }

  lemma OthersOweNothing(s: State, ev: Event, interval: nat)
    requires Enabled(s, ev) && !Requests(s, ev) && (ev.LoopLooks? ==> s.engine.draining)
    ensures PassesAdded(s, ev) + OwedReruns(Step(s, ev, interval).engine) <= OwedReruns(s.engine)
  {
    match ev
    case LoopLooks => assert OwedReruns(LookAgain(s.paused, s.engine)) == 0;
    case BodySettles(ok) => SettlingOwesNothing(s.engine, ok, interval);
    case Pause => assert SameDrain(PauseEngine(s.engine), s.engine);
    case Stop => assert SameDrain(StopEngine(s.engine), s.engine);
    case _ =>
  }

  predicate SameDrain(e: Engine, f: Engine) { e.draining == f.draining && e.rerun == f.rerun }

  lemma SettlingOwesNothing(e: Engine, ok: bool, interval: nat)
    requires e.running.Some?
    ensures SameDrain(SettleBody(e, ok, interval), e)
  {
  }

  lemma ExchangeOwes(e: Engine, e0: Engine)
    requires e0.draining == e.draining && e0.rerun == e.rerun
    ensures OneIf(!e.draining) + OwedReruns(RunExchangeOnce(e0)) <= 1 + OwedReruns(e)
  {
  }

  /** Every pass is paid for by a request: finitely many requests end the owner's loop. */
  lemma {:induction false} PassesBounded(s: State, run: seq<Event>, interval: nat)
    requires Inv(s, interval) && Possible(s, run, interval)
    ensures PassesIn(s, run, interval) + OwedReruns(After(s, run, interval).engine)
      <= RequestsIn(s, run, interval) + OwedReruns(s.engine)
    decreases |run|
  {
    if run != [] {
      var s1 := Step(s, run[0], interval);
      PassesPaid(s, run[0], interval);
      StepKeepsInv(s, run[0], interval);
      PassesBounded(s1, run[1..], interval);
    }
  }

  /** `PassesAdded` is what the requests and the loop put on the chain. */
  lemma PassesReachTheChain(s: State, ev: Event, interval: nat)
    requires Inv(s, interval) && Enabled(s, ev) && (ev.LoopLooks? || Requests(s, ev))
    ensures Count(Step(s, ev, interval).engine.waiting, DrainPass) ==
      Count(s.engine.waiting, DrainPass) + PassesAdded(s, ev)
  {
    var e := s.engine;
    match ev
    case LoopLooks => CountAppend(e.waiting, DrainPass, DrainPass);
    case TickFires => ExchangeAdds(e, e.(ticks := e.ticks - 1));
    case NudgeFires => ExchangeAdds(e, ClearTick(e.(nudge := false)));
    case Kick => ExchangeAdds(e, ClearTick(e).(backoff := interval, fails := 0));
  }

  lemma ExchangeAdds(e: Engine, e0: Engine)
    requires e0.waiting == e.waiting && e0.draining == e.draining
    ensures Count(RunExchangeOnce(e0).waiting, DrainPass) == Count(e.waiting, DrainPass) + OneIf(!e.draining)
  {
    CountAppend(e.waiting, DrainPass, DrainPass);
  }

  // ---- A folded request gets its pass ----

  predicate StartsPass(s: State, ev: Event) { ev.BodyStarts? && s.engine.waiting != [] && s.engine.waiting[0].DrainPass? }

  predicate EndsPass(s: State, ev: Event) { ev.BodySettles? && s.engine.running == Some(DrainPass) }

  ghost predicate PassEnds(s: State, run: seq<Event>, interval: nat)
    requires Possible(s, run, interval)
    decreases |run|
  {
    run != [] && (EndsPass(s, run[0]) || PassEnds(Step(s, run[0], interval), run[1..], interval))
  }

  /** A drain pass starts in the run, and ends in it. */
  ghost predicate WholePass(s: State, run: seq<Event>, interval: nat)
    requires Possible(s, run, interval)
    decreases |run|
  {
    && run != []
    && var s1, rest := Step(s, run[0], interval), run[1..];
    (StartsPass(s, run[0]) && PassEnds(s1, rest, interval)) || WholePass(s1, rest, interval)
  }

  /** The running body is the same, and nothing left the queue. */
  predicate Queues(e: Engine, e1: Engine) { e1.running == e.running && e.waiting <= e1.waiting }

  lemma RequestQueues(s: State, ev: Event, interval: nat)
    requires Enabled(s, ev) && (ev.TickFires? || ev.NudgeFires? || ev.Kick?)
    ensures Queues(s.engine, Step(s, ev, interval).engine)
  {
    var e := s.engine;
    match ev
    case TickFires => ExchangeQueues(e, e.(ticks := e.ticks - 1));
    case NudgeFires => ExchangeQueues(e, ClearTick(e.(nudge := false)));
    case Kick => ExchangeQueues(e, ClearTick(e).(backoff := interval, fails := 0));
  }

  lemma ExchangeQueues(e: Engine, e0: Engine)
    requires e0.running == e.running && e0.waiting == e.waiting
    ensures Queues(e, RunExchangeOnce(e0))
  {
  }

  lemma LookQueues(s: State, interval: nat)
    requires Enabled(s, LoopLooks)
    ensures Queues(s.engine, Step(s, LoopLooks, interval).engine)
  {
  }

  lemma LeverQueues(s: State, ev: Event, interval: nat)
    requires Enabled(s, ev) && (ev.Pause? || ev.Stop? || ev.Resume? || ev.Submitted?)
    ensures Queues(s.engine, Step(s, ev, interval).engine)
  {
  }

  lemma ReturnQueues(s: State, ev: Event, interval: nat)
    requires Enabled(s, ev) && (ev.LocalWrite? || ev.OwnerResumes? || ev.ResumerResumes?)
    ensures Queues(s.engine, Step(s, ev, interval).engine)
  {
  }

  lemma OthersQueue(s: State, ev: Event, interval: nat)
    requires Enabled(s, ev) && !ev.BodyStarts? && !ev.BodySettles?
    ensures Queues(s.engine, Step(s, ev, interval).engine)
  {
    hide Step, Enabled, Queues;
    match ev
    case LoopLooks => LookQueues(s, interval);
    case TickFires => RequestQueues(s, ev, interval);
    case NudgeFires => RequestQueues(s, ev, interval);
    case Kick => RequestQueues(s, ev, interval);
    case Pause => LeverQueues(s, ev, interval);
    case Stop => LeverQueues(s, ev, interval);
    case Resume => LeverQueues(s, ev, interval);
    case Submitted => LeverQueues(s, ev, interval);
    case LocalWrite => ReturnQueues(s, ev, interval);
    case OwnerResumes => ReturnQueues(s, ev, interval);
    case ResumerResumes => ReturnQueues(s, ev, interval);
  }

  lemma RunningStays(s: State, ev: Event, interval: nat)
    requires Enabled(s, ev) && s.engine.running.Some? && !ev.BodySettles?
    ensures Step(s, ev, interval).engine.running == s.engine.running
  {
    hide Step;
    OthersQueue(s, ev, interval);
  }

  lemma {:induction false} RunningPassEnds(s: State, run: seq<Event>, interval: nat)
    requires Inv(s, interval) && Possible(s, run, interval)
    requires s.engine.running == Some(DrainPass) && !After(s, run, interval).engine.draining
    ensures PassEnds(s, run, interval)
    decreases |run|
  {
    if run != [] && !EndsPass(s, run[0]) {
      RunningStays(s, run[0], interval);
      StepKeepsInv(s, run[0], interval);
      RunningPassEnds(Step(s, run[0], interval), run[1..], interval);
    }
  }

  predicate PassWaits(e: Engine) { Count(e.waiting, DrainPass) > 0 }

  lemma {:induction false} CountPrefix(w: seq<Body>, w1: seq<Body>, b: Body)
    requires w <= w1
    ensures Count(w, b) <= Count(w1, b)
  {
    if w != [] { CountPrefix(w[1..], w1[1..], b); }
  }

  lemma BodyLeavesThePass(s: State, ev: Event, interval: nat)
    requires Enabled(s, ev) && PassWaits(s.engine) && (ev.BodySettles? || (ev.BodyStarts? && !StartsPass(s, ev)))
    ensures PassWaits(Step(s, ev, interval).engine)
  {
    hide SettleBody, StartBody;
    if ev.BodySettles? {
      SettlingLeavesTheQueue(s.engine, ev.ok, interval);
    } else {
      StartingLeavesThePass(s.paused, s.engine);
    }
  }

  lemma SettlingLeavesTheQueue(e: Engine, ok: bool, interval: nat)
    requires e.running.Some?
    ensures SettleBody(e, ok, interval).waiting == e.waiting
  {
  }

  lemma StartingLeavesThePass(paused: bool, e: Engine)
    requires PassWaits(e) && e.waiting != [] && !e.waiting[0].DrainPass?
    ensures PassWaits(StartBody(paused, e))
  {
  }

  lemma WaitingStays(s: State, ev: Event, interval: nat)
    requires Enabled(s, ev) && PassWaits(s.engine) && !StartsPass(s, ev)
    ensures PassWaits(Step(s, ev, interval).engine)
  {
    hide Step, Enabled;
    if ev.BodyStarts? || ev.BodySettles? {
      BodyLeavesThePass(s, ev, interval);
    } else {
      OthersQueue(s, ev, interval);
      CountPrefix(s.engine.waiting, Step(s, ev, interval).engine.waiting, DrainPass);
    }
  }

  lemma {:induction false} WaitingPassRuns(s: State, run: seq<Event>, interval: nat)
    requires Inv(s, interval) && Possible(s, run, interval)
    requires PassWaits(s.engine) && !After(s, run, interval).engine.draining
    ensures WholePass(s, run, interval)
    decreases |run|
  {
    if run != [] {
      var s1 := Step(s, run[0], interval);
      StepKeepsInv(s, run[0], interval);
      if StartsPass(s, run[0]) {
        RunningPassEnds(s1, run[1..], interval);
      } else {
        WaitingStays(s, run[0], interval);
        WaitingPassRuns(s1, run[1..], interval);
      }
    }
  }

  predicate Going(s: State) { !s.paused && !s.engine.stopped && s.engine.draining && s.engine.rerun }

  lemma GoingStays(s: State, ev: Event, interval: nat)
    requires Enabled(s, ev) && Going(s) && !ev.Pause? && !ev.Stop? && !ev.LoopLooks?
    ensures Going(Step(s, ev, interval))
  {
    if ev.BodySettles? { SettlingOwesNothing(s.engine, ev.ok, interval); }
  }

  lemma RerunIsQueued(s: State, interval: nat)
    requires Enabled(s, LoopLooks) && Going(s)
    ensures PassWaits(Step(s, LoopLooks, interval).engine)
  {
    CountAppend(s.engine.waiting, DrainPass, DrainPass);
  }

  /** However the drain goes on, unless it is cancelled it does not end before a whole pass that began after the request. */
  lemma {:induction false} FoldedRequestGetsItsPass(s: State, run: seq<Event>, interval: nat)
    requires Inv(s, interval) && Going(s) && Possible(s, run, interval)
    requires Pause !in run && Stop !in run && !After(s, run, interval).engine.draining
    ensures WholePass(s, run, interval)
    decreases |run|
  {
    if run != [] {
      var s1 := Step(s, run[0], interval);
      StepKeepsInv(s, run[0], interval);
      if StartsPass(s, run[0]) {
        RunningPassEnds(s1, run[1..], interval);
      } else if run[0].LoopLooks? {
        RerunIsQueued(s, interval);
        WaitingPassRuns(s1, run[1..], interval);
      } else {
        GoingStays(s, run[0], interval);
        FoldedRequestGetsItsPass(s1, run[1..], interval);
      }
    }
  }

  // ---- And costs no more than that ----

  lemma FoldStep(s: State, ev: Event, interval: nat)
    requires Enabled(s, ev) && s.engine.draining && !ev.LoopLooks?
    ensures PassesAdded(s, ev) == 0
    ensures var e1 := Step(s, ev, interval).engine; e1.draining && e1.rerun == (s.engine.rerun || Requests(s, ev))
  {
    if ev.BodySettles? { SettlingOwesNothing(s.engine, ev.ok, interval); }
  }

  /** Until the loop looks at its pass, requests put nothing on the chain; then all of them together put one pass there. */
  lemma {:induction false} FoldsCostOnePass(s: State, run: seq<Event>, interval: nat)
    requires s.engine.draining && Possible(s, run, interval) && LoopLooks !in run
    ensures var s1 := After(s, run, interval);
      && PassesIn(s, run, interval) == 0 && s1.engine.draining
      && s1.engine.rerun == (s.engine.rerun || RequestsIn(s, run, interval) > 0)
      && (Enabled(s1, LoopLooks) ==>
            PassesAdded(s1, LoopLooks)
              == OneIf((s.engine.rerun || RequestsIn(s, run, interval) > 0) && !s1.paused && !s1.engine.stopped))
    decreases |run|
  {
    if run != [] {
      FoldStep(s, run[0], interval);
      FoldsCostOnePass(Step(s, run[0], interval), run[1..], interval);
    }
  }
}
