/**
  What the supervisor owes, read off the events alone.

  A local write, a new engine and a sync cut short by a pause are owed a sync body
  from then on: in every run that starts none under a live signal, an engine that
  may sync has a nudge, a rerun or a sync body queued for it (`WriteIsOwed`,
  `NewEngineOwes`, `CutShortIsOwed`). The chain is first in, first out, and
  `QueueExactly` and `NudgeExactly` say what each event adds to it and does to the
  nudge.
*/
module SupervisorWrites {
  import opened Wrappers
  import opened Supervisor
  import opened SupervisorSafety
  import opened SupervisorCoalescing
  import opened SupervisorTimers
  import opened SupervisorPause

  // ---- Owed writes ----

  /** A sync body starts under a signal that is not aborted. */
  predicate ShipsLive(s: State, ev: Event) {
    && ev.BodyStarts? && s.engine.waiting != [] && s.engine.waiting[0] in {DrainPass, ResumeSync}
    && !s.paused && !s.engine.stopped
  }

  ghost predicate NoneShips(s: State, run: seq<Event>, interval: nat)
    requires Possible(s, run, interval)
    decreases |run|
  {
    run != [] ==> !ShipsLive(s, run[0]) && NoneShips(Step(s, run[0], interval), run[1..], interval)
  }

  lemma StillOwed(s: State, ev: Event, interval: nat)
    requires Enabled(s, ev) && s.engine.dirty && !ShipsLive(s, ev)
    ensures Step(s, ev, interval).engine.dirty
  {
    var e := s.engine;
    match ev
    case BodySettles(ok) => SettlingKeepsOwed(e, ok, interval);
    case TickFires => DrainKeepsOwed(e.(ticks := e.ticks - 1));
    case NudgeFires => DrainKeepsOwed(ClearTick(e.(nudge := false)));
    case Kick => DrainKeepsOwed(ClearTick(e).(backoff := interval, fails := 0));
    case _ => OthersKeepOwed(s, ev, interval);
  }

  lemma SettlingKeepsOwed(e: Engine, ok: bool, interval: nat)
    requires e.running.Some?
    ensures SettleBody(e, ok, interval).dirty == e.dirty
  {
  }

  lemma DrainKeepsOwed(e: Engine)
    ensures RunExchangeOnce(e).dirty == e.dirty
  {
  }

  lemma OthersKeepOwed(s: State, ev: Event, interval: nat)
    requires Enabled(s, ev) && s.engine.dirty && !ShipsLive(s, ev) && !Requests(s, ev) && !ev.BodySettles? && !ev.Kick?
    ensures Step(s, ev, interval).engine.dirty
  {
    hide Step, Enabled, ShipsLive;
    match ev
    case BodyStarts => StartKeepsOwed(s, interval);
    case LoopLooks => LookKeepsOwed(s, interval);
    case _ => LeverKeepsOwed(s, ev, interval);
  }

  lemma StartKeepsOwed(s: State, interval: nat)
    requires s.engine.dirty && !ShipsLive(s, BodyStarts) && Enabled(s, BodyStarts)
    ensures Step(s, BodyStarts, interval).engine.dirty
  {
  }

  lemma LookKeepsOwed(s: State, interval: nat)
    requires s.engine.dirty && Enabled(s, LoopLooks)
    ensures Step(s, LoopLooks, interval).engine.dirty
  {
  }

  lemma LeverKeepsOwed(s: State, ev: Event, interval: nat)
    requires s.engine.dirty && Enabled(s, ev)
    requires ev.LocalWrite? || ev.OwnerResumes? || ev.ResumerResumes? || ev.Submitted? || ev.Pause? || ev.Resume? || ev.Stop?
    ensures Step(s, ev, interval).engine.dirty
  {
  }

  lemma {:induction false} OwedUntilShipped(s: State, run: seq<Event>, interval: nat)
    requires Inv(s, interval) && s.engine.dirty && Possible(s, run, interval) && NoneShips(s, run, interval)
    ensures Inv(After(s, run, interval), interval) && After(s, run, interval).engine.dirty
    decreases |run|
  {
    if run != [] {
      StillOwed(s, run[0], interval);
      StepKeepsInv(s, run[0], interval);
      OwedUntilShipped(Step(s, run[0], interval), run[1..], interval);
    }
  }

  /** The engine may sync, and what it owes has a nudge, a rerun or a sync body queued. */
  predicate Provided(s: State) {
    var e := s.engine;
    !s.paused && !e.stopped ==> e.nudge || (e.draining && e.rerun) || exists b :: b in e.waiting && b in {DrainPass, ResumeSync}
  }

  lemma {:induction false} WaitsInTheQueue(w: seq<Body>)
    requires FirstSync(w) < |w|
    ensures exists b :: b in w && b in {DrainPass, ResumeSync}
  {
    assert w != [];
    if Syncs(w[0]) {
      assert w[0] in w;
    } else {
      WaitsInTheQueue(w[1..]);
      var b :| b in w[1..] && b in {DrainPass, ResumeSync};
      assert b in w;
    }
  }

  lemma OwedIsProvided(s: State, interval: nat)
    requires Inv(s, interval) && s.engine.dirty
    ensures Provided(s)
  {
    if SyncWaits(s.engine) { WaitsInTheQueue(s.engine.waiting); }
  }

  /** A local write is provided for in every run that starts no sync body for it. */
  lemma WriteIsOwed(s: State, run: seq<Event>, interval: nat)
    requires Inv(s, interval) && Enabled(s, LocalWrite)
    requires Possible(Step(s, LocalWrite, interval), run, interval) && NoneShips(Step(s, LocalWrite, interval), run, interval)
    ensures Provided(After(Step(s, LocalWrite, interval), run, interval))
  {
    StepKeepsInv(s, LocalWrite, interval);
    OwedUntilShipped(Step(s, LocalWrite, interval), run, interval);
    OwedIsProvided(After(Step(s, LocalWrite, interval), run, interval), interval);
  }

  /** So is what was written before the engine existed. */
  lemma NewEngineOwes(paused: bool, run: seq<Event>, interval: nat)
    requires var s0 := State(paused, NewEngine(paused, interval)); Possible(s0, run, interval) && NoneShips(s0, run, interval)
    ensures Provided(After(State(paused, NewEngine(paused, interval)), run, interval))
  {
    StartIsSafe(paused, interval);
    OwedUntilShipped(State(paused, NewEngine(paused, interval)), run, interval);
    OwedIsProvided(After(State(paused, NewEngine(paused, interval)), run, interval), interval);
  }

  /** And what a sync body was about to ship when a pause aborted it. */
  lemma CutShortIsOwed(s: State, run: seq<Event>, interval: nat)
    requires Inv(s, interval) && !s.engine.stopped && s.engine.running in {Some(DrainPass), Some(ResumeSync)}
    requires Possible(Step(s, Pause, interval), run, interval) && NoneShips(Step(s, Pause, interval), run, interval)
    ensures Provided(After(Step(s, Pause, interval), run, interval))
  {
    StepKeepsInv(s, Pause, interval);
    OwedUntilShipped(Step(s, Pause, interval), run, interval);
    OwedIsProvided(After(Step(s, Pause, interval), run, interval), interval);
  }

  // ---- The chain and the nudge ----

  /** What an event puts at the end of the chain. */
  function Queued(s: State, ev: Event): seq<Body>
    requires Enabled(s, ev)
  {
    if ev.Submitted? || ev.Stop? then [Other]
    else if ev.Resume? then (if s.engine.stopped then [] else [ResumeSync])
    else if PassesAdded(s, ev) == 1 then [DrainPass]
    else []
  }

  /** The chain is first in, first out: a start takes the first body, and each event adds what it queues at the end. */
  lemma QueueExactly(s: State, ev: Event, interval: nat)
    requires Enabled(s, ev)
    ensures var e, e1 := s.engine, Step(s, ev, interval).engine;
      if ev.BodyStarts? then [e1.running.value] + e1.waiting == e.waiting && e1.running.Some?
      else e1.waiting == e.waiting + Queued(s, ev) && e1.running == if ev.BodySettles? then None else e.running
  {
    var e := s.engine;
    match ev
    case BodySettles(ok) => SettlingQueuesNothing(e, ok, interval);
    case TickFires => DrainQueues(e.(ticks := e.ticks - 1));
    case NudgeFires => DrainQueues(ClearTick(e.(nudge := false)));
    case Kick => DrainQueues(ClearTick(e).(backoff := interval, fails := 0));
    case _ => OthersQueueExactly(s, ev, interval);
  }

  lemma SettlingQueuesNothing(e: Engine, ok: bool, interval: nat)
    requires e.running.Some?
    ensures var e1 := SettleBody(e, ok, interval); e1.waiting == e.waiting + [] && e1.running.None?
  {
  }

  lemma DrainQueues(e: Engine)
    ensures var e1 := RunExchangeOnce(e);
      e1.waiting == e.waiting + (if e.draining then [] else [DrainPass]) && e1.running == e.running
  {
  }

  lemma OthersQueueExactly(s: State, ev: Event, interval: nat)
    requires Enabled(s, ev) && !Requests(s, ev) && !ev.BodySettles? && !ev.Kick?
    ensures var e, e1 := s.engine, Step(s, ev, interval).engine;
      if ev.BodyStarts? then e1.running.Some? && [e1.running.value] + e1.waiting == e.waiting
      else e1.waiting == e.waiting + Queued(s, ev) && e1.running == e.running
  {
  }

  /** A nudge is armed by a write while sync runs, and is gone once it fires, and after a pause or a stop. */
  lemma NudgeExactly(s: State, ev: Event, interval: nat)
    requires Inv(s, interval) && Enabled(s, ev)
    ensures Step(s, ev, interval).engine.nudge ==
      if ev.LocalWrite? then s.engine.nudge || !s.paused
      else if ev.NudgeFires? || ev.Pause? || ev.Stop? then false
      else s.engine.nudge
  {
    if ev.BodySettles? { SettlingArmsNothing(s.engine, ev.ok, interval); }
  }

  /** An engine that was stopped is past pausing and resuming. */
  lemma StoppedIsLeftAlone(s: State, interval: nat)
    requires s.engine.stopped
    ensures Step(s, Pause, interval) == State(true, s.engine) && Step(s, Resume, interval) == State(false, s.engine)
  {
  }

  // ---- The entry names its tick ----

  lemma NamedStep(s: State, ev: Event, interval: nat)
    requires Inv(s, interval) && Enabled(s, ev) && !s.engine.stopped && NoneLeaked(s.engine)
    requires Loops(s.engine) <= 1 && !Step(s, ev, interval).engine.stopped
    ensures NoneLeaked(Step(s, ev, interval).engine)
  {
    if ev.BodySettles? { SettlingKeepsTick(s.engine, ev.ok, interval); }
  }

  lemma SettlingKeepsTick(e: Engine, ok: bool, interval: nat)
    requires e.running.Some?
    ensures var e1 := SettleBody(e, ok, interval); e1.ticks == e.ticks && e1.handle == e.handle
  {
  }

  /** In every run that never has a second loop no tick leaks, so a pause at its end silences the engine. */
  lemma {:induction false} OneLoopIsNamed(s: State, run: seq<Event>, interval: nat)
    requires Inv(s, interval) && NoneLeaked(s.engine) && Possible(s, run, interval) && AtMostOne(s, run, interval)
    requires !After(s, run, interval).engine.stopped
    ensures NoneLeaked(After(s, run, interval).engine)
    ensures Silent(Step(After(s, run, interval), Pause, interval))
    decreases |run|
  {
    if run == [] {
      PauseSilencesExactly(s, interval);
    } else {
      var s1 := Step(s, run[0], interval);
      if s.engine.stopped {
        StoppedEnds(s, run, interval);
      } else {
        if s1.engine.stopped { StoppedEnds(s1, run[1..], interval); }
        NamedStep(s, run[0], interval);
      }
      StepKeepsInv(s, run[0], interval);
      OneLoopIsNamed(s1, run[1..], interval);
    }
  }

  lemma {:induction false} StoppedEnds(s: State, run: seq<Event>, interval: nat)
    requires s.engine.stopped && Possible(s, run, interval)
    ensures After(s, run, interval).engine.stopped
    decreases |run|
  {
    if run != [] {
      StoppedStays(s, run[0], interval);
      StoppedEnds(Step(s, run[0], interval), run[1..], interval);
    }
  }
}
