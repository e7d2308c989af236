/**
  Tick timers: how many can be live, and what outlives a stopped engine.

  `Loops` counts the live ticks and everything that will arm one. A step adds one
  exactly if it is a resume, or a drain that starts in the gap between the end of
  one and the moment its owner re-arms (`StepLoops`); so a second one arises
  exactly where such a step meets a first (`SecondLoopExactly`), and a run has
  never two exactly if it has no such step (`OneLoopExactly`). Every loop counted
  becomes a live tick (`LoopsBecomeTicks`), a stopped engine's too.
*/
module SupervisorTimers {
  import opened Wrappers
  import opened Supervisor
  import opened SupervisorSafety

  /** The live ticks, and what will arm one. */
  function Loops(e: Engine): nat { e.ticks + OneIf(e.draining) + e.returning + Resuming(e) }

  /** A drain that starts though no tick was armed: the one that ended has not re-armed yet. */
  predicate GapStart(s: State, ev: Event) {
    (ev.NudgeFires? || (ev.Kick? && !s.paused)) && !s.engine.draining && !s.engine.handle
  }

  predicate Doubles(s: State, ev: Event) { (ev.Resume? && !s.engine.stopped) || GapStart(s, ev) }

  /** A step that neither adds a loop nor ends one, while sync is not paused. */
  predicate CarriesOn(ev: Event) {
    ev.BodyStarts? || ev.BodySettles? || ev.LoopLooks? || ev.OwnerResumes? || ev.ResumerResumes?
  }

  // ---- One step ----

  /** What a step does to the count: one more exactly for a doubling, never more than that. */
  predicate Counted(s: State, ev: Event, e1: Engine) {
    && (if Doubles(s, ev) then Loops(e1) == Loops(s.engine) + 1 else Loops(e1) <= Loops(s.engine))
    && (CarriesOn(ev) && !s.paused ==> Loops(e1) == Loops(s.engine))
  }

  lemma DrainLoops(e: Engine)
    requires EngineOk(e)
    ensures Loops(RunExchangeOnce(e)) == Loops(e) + OneIf(!e.draining)
  {
    EnterDrainStep(e.(handle := false));
  }

  lemma ClearedDrainLoops(e: Engine, e0: Engine)
    requires EngineOk(e) && (e.handle ==> e.ticks > 0) && e0.ticks == ClearTick(e).ticks
    requires e0.waiting == e.waiting && e0.running == e.running && e0.draining == e.draining
    requires e0.passDone == e.passDone && e0.returning == e.returning && e0.resumeDone == e.resumeDone
    ensures Loops(RunExchangeOnce(e0)) == Loops(e) + OneIf(!e.draining && !e.handle) - OneIf(e.draining && e.handle)
  {
    DrainLoops(e0);
  }

  lemma TickLoops(s: State, interval: nat)
    requires Inv(s, interval) && Enabled(s, TickFires)
    ensures Counted(s, TickFires, Step(s, TickFires, interval).engine)
  {
    DrainLoops(s.engine.(ticks := s.engine.ticks - 1));
  }

  lemma NudgeLoops(s: State, interval: nat)
    requires Inv(s, interval) && Enabled(s, NudgeFires)
    ensures Counted(s, NudgeFires, Step(s, NudgeFires, interval).engine)
  {
    ClearedDrainLoops(s.engine, ClearTick(s.engine.(nudge := false)));
  }

  lemma KickLoops(s: State, interval: nat)
    requires Inv(s, interval) && Enabled(s, Kick)
    ensures Counted(s, Kick, Step(s, Kick, interval).engine)
  {
    ClearedDrainLoops(s.engine, ClearTick(s.engine).(backoff := interval, fails := 0));
  }

  lemma StartLoops(s: State, interval: nat)
    requires Inv(s, interval) && Enabled(s, BodyStarts)
    ensures Counted(s, BodyStarts, Step(s, BodyStarts, interval).engine)
  {
    StartBodyStep(s.paused, s.engine);
  }

  lemma SettleLoops(s: State, ok: bool, interval: nat)
    requires Inv(s, interval) && Enabled(s, BodySettles(ok))
    ensures Counted(s, BodySettles(ok), Step(s, BodySettles(ok), interval).engine)
  {
    SettleStep(s, ok, interval);
    SettleKeepsTheRest(s.engine, ok, interval);
  }

  lemma SettleKeepsTheRest(e: Engine, ok: bool, interval: nat)
    requires e.running.Some?
    ensures var e1 := SettleBody(e, ok, interval);
      e1.ticks == e.ticks && e1.draining == e.draining && e1.returning == e.returning
  {
  }

  lemma LookLoops(s: State, interval: nat)
    requires Inv(s, interval) && Enabled(s, LoopLooks)
    ensures Counted(s, LoopLooks, Step(s, LoopLooks, interval).engine)
  {
    LookStep(s, interval);
  }

  lemma ReturnLoops(s: State, ev: Event, interval: nat)
    requires Enabled(s, ev) && (ev.LocalWrite? || ev.OwnerResumes? || ev.ResumerResumes?)
    ensures Counted(s, ev, Step(s, ev, interval).engine)
  {
  }

  lemma LeverLoops(s: State, ev: Event, interval: nat)
    requires Enabled(s, ev) && (ev.Submitted? || ev.Pause? || ev.Stop?)
    ensures Counted(s, ev, Step(s, ev, interval).engine)
  {
    OtherStep(s.engine);
    OtherStep(ClearTimer(s.engine).(stopped := true, nudge := false));
  }

  lemma ResumeLoops(s: State, interval: nat)
    ensures Counted(s, Resume, Step(s, Resume, interval).engine)
  {
    ChainCounts(s.engine, ResumeSync, ResumeSync);
  }

  lemma {:induction false} StepLoops(s: State, ev: Event, interval: nat)
    requires Inv(s, interval) && Enabled(s, ev)
    ensures Counted(s, ev, Step(s, ev, interval).engine)
    ensures Loops(Step(s, ev, interval).engine) > Loops(s.engine) <==> Doubles(s, ev)
  {
    assert Counted(s, ev, Step(s, ev, interval).engine) by {
      hide Inv, Step, Enabled, Counted;
      match ev
      case TickFires => TickLoops(s, interval);
      case NudgeFires => NudgeLoops(s, interval);
      case Kick => KickLoops(s, interval);
      case BodyStarts => StartLoops(s, interval);
      case BodySettles(ok) => SettleLoops(s, ok, interval);
      case LoopLooks => LookLoops(s, interval);
      case LocalWrite => ReturnLoops(s, ev, interval);
      case OwnerResumes => ReturnLoops(s, ev, interval);
      case ResumerResumes => ReturnLoops(s, ev, interval);
      case Submitted => LeverLoops(s, ev, interval);
      case Pause => LeverLoops(s, ev, interval);
      case Stop => LeverLoops(s, ev, interval);
      case Resume => ResumeLoops(s, interval);
    }
    CountedExactly(s, ev, Step(s, ev, interval).engine);
  }

  lemma CountedExactly(s: State, ev: Event, e1: Engine)
    requires Counted(s, ev, e1)
    ensures Loops(e1) > Loops(s.engine) <==> Doubles(s, ev)
    ensures Loops(e1) <= Loops(s.engine) + OneIf(Doubles(s, ev))
  {
  }

  /** Where there is at most one loop, a step makes a second exactly if it is a doubling that meets a first. */
  lemma SecondLoopExactly(s: State, ev: Event, interval: nat)
    requires Inv(s, interval) && Enabled(s, ev) && Loops(s.engine) <= 1
    ensures Loops(Step(s, ev, interval).engine) >= 2 <==> Loops(s.engine) == 1 && Doubles(s, ev)
  {
    hide Inv, Step, Enabled, Loops, Doubles;
    StepLoops(s, ev, interval);
    CountedExactly(s, ev, Step(s, ev, interval).engine);
  }

  /** A drain in the gap always meets a first loop, and so does a resume of an engine that was not paused. */
  lemma GapMeetsALoop(s: State, ev: Event, interval: nat)
    requires Inv(s, interval) && Enabled(s, ev)
    requires GapStart(s, ev) || (ev.Resume? && !s.paused && !s.engine.stopped)
    ensures Loops(Step(s, ev, interval).engine) >= 2
  {
    assert Alive(s.engine) && Loops(s.engine) >= 1;
    hide Inv, Step, Enabled, Loops;
    StepLoops(s, ev, interval);
    CountedExactly(s, ev, Step(s, ev, interval).engine);
  }

  // ---- Whole runs ----

  ghost predicate AtMostOne(s: State, run: seq<Event>, interval: nat)
    requires Possible(s, run, interval)
    decreases |run|
  {
    Loops(s.engine) <= 1 && (run != [] ==> AtMostOne(Step(s, run[0], interval), run[1..], interval))
  }

  /** No resume and no drain in the gap while a loop is counted. A resume once a pause has ended every loop is none. */
  ghost predicate NoneMeets(s: State, run: seq<Event>, interval: nat)
    requires Possible(s, run, interval)
    decreases |run|
  {
    run != [] ==>
      !(Doubles(s, run[0]) && Loops(s.engine) >= 1) && NoneMeets(Step(s, run[0], interval), run[1..], interval)
  }

  /** In the whole of a run there is never a second loop exactly if no doubling of it meets a first. */
  lemma {:induction false} OneLoopExactly(s: State, run: seq<Event>, interval: nat)
    requires Inv(s, interval) && Possible(s, run, interval) && Loops(s.engine) <= 1
    ensures AtMostOne(s, run, interval) <==> NoneMeets(s, run, interval)
    decreases |run|
  {
    if run != [] {
      var s1 := Step(s, run[0], interval);
      StepKeepsInv(s, run[0], interval);
      SecondLoopExactly(s, run[0], interval);
      if Loops(s1.engine) <= 1 { OneLoopExactly(s1, run[1..], interval); }
    }
  }

  lemma {:induction false} EndOfOne(s: State, run: seq<Event>, interval: nat)
    requires Possible(s, run, interval) && AtMostOne(s, run, interval)
    ensures Loops(After(s, run, interval).engine) <= 1
    decreases |run|
  {
    if run != [] { EndOfOne(Step(s, run[0], interval), run[1..], interval); }
  }

  /** Then never two timers, never a timer during a drain, and while unpaused never neither. */
  lemma OneLoop(paused: bool, interval: nat, run: seq<Event>)
    requires var s0 := State(paused, NewEngine(paused, interval));
      Possible(s0, run, interval) && NoneMeets(s0, run, interval)
    ensures var s := After(State(paused, NewEngine(paused, interval)), run, interval); var e := s.engine;
      && e.ticks + OneIf(e.draining) + e.returning <= 1
      && (!s.paused && !e.stopped ==> e.ticks + OneIf(e.draining) + e.returning + Resuming(e) == 1)
  {
    var s0 := State(paused, NewEngine(paused, interval));
    StartIsSafe(paused, interval);
    RunKeepsInv(s0, run, interval);
    OneLoopExactly(s0, run, interval);
    EndOfOne(s0, run, interval);
  }

  // ---- Every loop becomes a tick ----

  /** The steps left before nothing but ticks is counted. */
  function Unfinished(e: Engine): nat {
    8 * OneIf(e.draining && e.rerun) + 4 * |e.waiting| + 3 * OneIf(e.running.Some?) + 2 * OneIf(e.passDone)
    + e.returning + e.resumeDone
  }

  function Finishing(e: Engine): Event {
    if e.returning > 0 then OwnerResumes
    else if e.resumeDone > 0 then ResumerResumes
    else if e.passDone then LoopLooks
    else if e.running.Some? then BodySettles(true)
    else BodyStarts
  }

  lemma FinishingAdvances(s: State, interval: nat)
    requires Inv(s, interval) && !s.paused && Loops(s.engine) > s.engine.ticks
    ensures var ev := Finishing(s.engine);
      && Enabled(s, ev) && CarriesOn(ev) && Unfinished(Step(s, ev, interval).engine) < Unfinished(s.engine)
      && !Step(s, ev, interval).paused && Step(s, ev, interval).engine.stopped == s.engine.stopped
  {
    var e := s.engine;
    if e.returning == 0 && e.resumeDone == 0 && !e.passDone {
      if e.running.Some? {
        SettlingAdvances(e, interval);
      } else {
        SomethingWaits(e);
        StartingAdvances(e);
      }
    }
  }

  lemma SettlingAdvances(e: Engine, interval: nat)
    requires e.running.Some? && !e.passDone
    ensures var e1 := SettleBody(e, true, interval); Unfinished(e1) < Unfinished(e) && e1.stopped == e.stopped
  {
    hide SettleBody;
    SettledFields(e, interval);
  }

  lemma SettledFields(e: Engine, interval: nat)
    requires e.running.Some?
    ensures var e1 := SettleBody(e, true, interval);
      && e1.running.None? && e1.waiting == e.waiting && e1.draining == e.draining && e1.rerun == e.rerun
      && e1.returning == e.returning && e1.stopped == e.stopped
      && ((e1.passDone == e.passDone && e1.resumeDone <= e.resumeDone + 1) || (e1.passDone && e1.resumeDone == e.resumeDone))
  {
    hide Min;
    match e.running.value
    case DrainPass =>
    case ResumeSync =>
    case Other =>
  }

  lemma StartingAdvances(e: Engine)
    requires e.running.None? && e.waiting != []
    ensures var e1 := StartBody(false, e); Unfinished(e1) < Unfinished(e) && e1.stopped == e.stopped
  {
  }

  lemma SomethingWaits(e: Engine)
    requires EngineOk(e) && e.running.None? && !e.passDone && (e.draining || OnChain(e, ResumeSync) > 0)
    ensures e.waiting != []
  {
  }

  /** While sync is not paused, everything counted can run to where it is a live tick, on a stopped engine too. */
  lemma {:induction false} LoopsBecomeTicks(s: State, interval: nat) returns (run: seq<Event>)
    requires Inv(s, interval) && !s.paused
    ensures Possible(s, run, interval)
    ensures var s1 := After(s, run, interval);
      s1.engine.ticks == Loops(s.engine) && !s1.paused && s1.engine.stopped == s.engine.stopped
    decreases Unfinished(s.engine)
  {
    if Loops(s.engine) == s.engine.ticks {
      run := [];
    } else {
      var ev := Finishing(s.engine);
      FinishingAdvances(s, interval);
      var s1 := Step(s, ev, interval);
      StepLoops(s, ev, interval);
      StepKeepsInv(s, ev, interval);
      assert Loops(s1.engine) == Loops(s.engine);
      var rest := LoopsBecomeTicks(s1, interval);
      RunFrom(s, ev, rest, interval);
      run := [ev] + rest;
    }
  }

  /** Both kinds of doubling happen: a kick finds the gap after a new engine's first drain. */
  lemma GapHappens(interval: nat)
    ensures var s0 := State(false, NewEngine(false, interval));
      var gap := [NudgeFires, BodyStarts, BodySettles(true), LoopLooks];
      && Possible(s0, gap, interval) && GapStart(After(s0, gap, interval), Kick) && Enabled(After(s0, gap, interval), Kick)
  {
  }

  /** And a resume that follows no pause leaves two live ticks. */
  lemma ResumeDoubles(interval: nat)
    ensures var s0 := State(false, NewEngine(false, interval));
      var run := [Resume, BodyStarts, BodySettles(true), ResumerResumes];
      && Possible(s0, run, interval) && After(s0, run, interval).engine.ticks == 2
  {
  }

  // ---- Stopped engines ----

  /** Nothing is armed, and nothing is left that will arm a timer. */
  predicate Quiet(e: Engine) { Loops(e) == 0 }

  /** What stopping leaves: quiet exactly when no drain, no owner and no resume was in flight, and no timer had leaked. */
  lemma QuietWhenStopped(s: State, interval: nat)
    requires Inv(s, interval) && !s.engine.stopped
    ensures Quiet(Step(s, Stop, interval).engine) <==>
      !s.engine.draining && s.engine.returning == 0 && Resuming(s.engine) == 0 && s.engine.ticks == OneIf(s.engine.handle)
  {
    OtherStep(ClearTimer(s.engine).(stopped := true, nudge := false));
  }

  lemma StoppedStays(s: State, ev: Event, interval: nat)
    requires Enabled(s, ev) && s.engine.stopped
    ensures Step(s, ev, interval).engine.stopped && !Doubles(s, ev)
  {
    if ev.BodySettles? { StoppedSettles(s.engine, ev.ok, interval); }
  }

  lemma StoppedSettles(e: Engine, ok: bool, interval: nat)
    requires e.running.Some?
    ensures SettleBody(e, ok, interval).stopped == e.stopped
  {
  }

  /** Once quiet, for ever quiet. */
  lemma {:induction false} QuietForEver(s: State, run: seq<Event>, interval: nat)
    requires Inv(s, interval) && s.engine.stopped && Quiet(s.engine) && Possible(s, run, interval)
    ensures Quiet(After(s, run, interval).engine)
    decreases |run|
  {
    if run != [] {
      StoppedStays(s, run[0], interval);
      StepLoops(s, run[0], interval);
      StepKeepsInv(s, run[0], interval);
      QuietForEver(Step(s, run[0], interval), run[1..], interval);
    }
  }

  /** A stopped engine that is not quiet ticks again: of every such state there is a run to a live tick. */
  lemma LoopsOutliveStop(s: State, interval: nat) returns (run: seq<Event>)
    requires Inv(s, interval) && s.engine.stopped && !Quiet(s.engine)
    ensures Possible(s, run, interval) && After(s, run, interval).engine.ticks > 0 && After(s, run, interval).engine.stopped
  {
    if s.paused {
      var s1 := Step(s, Resume, interval);
      StepKeepsInv(s, Resume, interval);
      var rest := LoopsBecomeTicks(s1, interval);
      RunFrom(s, Resume, rest, interval);
      run := [Resume] + rest;
    } else {
      run := LoopsBecomeTicks(s, interval);
    }
  }

  /** So a stopped engine is quiet exactly if no run of it, however long, ever has a live tick. */
  lemma QuietExactly(s: State, interval: nat)
    requires Inv(s, interval) && s.engine.stopped
    ensures Quiet(s.engine) <==>
      forall run :: Possible(s, run, interval) ==> After(s, run, interval).engine.ticks == 0
  {
    if Quiet(s.engine) {
      forall run | Possible(s, run, interval) ensures After(s, run, interval).engine.ticks == 0 {
        QuietForEver(s, run, interval);
      }
    } else {
      var run := LoopsOutliveStop(s, interval);
    }
  }
}
