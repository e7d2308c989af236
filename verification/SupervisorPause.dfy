/**
  A paused engine, and the pace of an engine that runs.

  A pause clears the tick the entry names and the nudge, so an engine without a
  second tick is silent from then on: no run without a resume ticks, nudges or
  puts a pass on the chain (`PausedIsSilent`), and only a tick that had leaked
  can break that (`SilentExactly`). A resume gets a sync body queued. The backoff is a
  function of what happened alone: the failing drains since a drain or a resume
  went well, or a kick (`BackoffIsHistory`).
*/
module SupervisorPause {
  import opened Wrappers
  import opened Supervisor
  import opened SupervisorSafety
  import opened SupervisorCoalescing

  /** No tick is live beyond the one the entry names. */
  predicate NoneLeaked(e: Engine) { e.ticks == OneIf(e.handle) }

  predicate Silent(s: State) { s.paused && s.engine.ticks == 0 && !s.engine.nudge }

  /** A pause silences a running engine exactly if no tick had leaked; what runs or waits on the chain stays there. */
  lemma PauseSilencesExactly(s: State, interval: nat)
    requires Inv(s, interval) && !s.engine.stopped
    ensures var s1 := Step(s, Pause, interval);
      && (Silent(s1) <==> NoneLeaked(s.engine)) && s1.paused && !s1.engine.nudge && !s1.engine.handle
      && s1.engine.waiting == s.engine.waiting && s1.engine.running == s.engine.running
      && s1.engine.draining == s.engine.draining && s1.engine.rerun == s.engine.rerun && s1.engine.backoff == s.engine.backoff
  {
  }

  /** While paused, no step but a resume arms anything or asks for a pass, unless a leaked tick fires. */
  lemma SilentStays(s: State, ev: Event, interval: nat)
    requires Silent(s) && Enabled(s, ev) && !ev.Resume?
    ensures Silent(Step(s, ev, interval)) && PassesAdded(s, ev) == 0 && !Requests(s, ev)
  {
    if ev.BodySettles? { SettlingArmsNothing(s.engine, ev.ok, interval); }
  }

  lemma SettlingArmsNothing(e: Engine, ok: bool, interval: nat)
    requires e.running.Some?
    ensures var e1 := SettleBody(e, ok, interval); e1.ticks == e.ticks && e1.nudge == e.nudge
  {
  }

  /** Once silent, an engine stays silent until someone resumes, and no pass is put on its chain. */
  lemma {:induction false} PausedIsSilent(s: State, run: seq<Event>, interval: nat)
    requires Silent(s) && Possible(s, run, interval) && Resume !in run
    ensures Silent(After(s, run, interval))
    ensures PassesIn(s, run, interval) == 0 && RequestsIn(s, run, interval) == 0
    ensures Count(After(s, run, interval).engine.waiting, DrainPass) <= Count(s.engine.waiting, DrainPass)
    decreases |run|
  {
    if run != [] {
      SilentStays(s, run[0], interval);
      NoPassQueued(s, run[0], interval);
      PausedIsSilent(Step(s, run[0], interval), run[1..], interval);
    }
  }

  lemma NoPassQueued(s: State, ev: Event, interval: nat)
    requires Silent(s) && Enabled(s, ev) && !ev.Resume?
    ensures Count(Step(s, ev, interval).engine.waiting, DrainPass) <= Count(s.engine.waiting, DrainPass)
  {
    var w := s.engine.waiting;
    CountAppend(w, Other, DrainPass);
    if ev.BodySettles? { SettlingLeavesTheQueue(s.engine, ev.ok, interval); }
  }

  /** A paused engine asks for no pass in any run without a resume exactly if it is silent. */
  lemma SilentExactly(s: State, interval: nat)
    requires Inv(s, interval) && s.paused
    ensures Silent(s) <==>
      forall run :: Possible(s, run, interval) && Resume !in run ==> RequestsIn(s, run, interval) == 0
  {
    if Silent(s) {
      forall run | Possible(s, run, interval) && Resume !in run ensures RequestsIn(s, run, interval) == 0 {
        PausedIsSilent(s, run, interval);
      }
    } else {
      var run := [TickFires];
      assert run[1..] == [];
      assert Possible(s, run, interval) && Resume !in run && RequestsIn(s, run, interval) == 1;
    }
  }

  /** A resume ends the pause and queues one sync body, behind everything asked for before. */
  lemma ResumeQueuesASync(s: State, interval: nat)
    requires !s.engine.stopped
    ensures var s1 := Step(s, Resume, interval);
      !s1.paused && s1 == State(false, s.engine.(waiting := s.engine.waiting + [ResumeSync]))
  {
  }

  // ---- The backoff ----

  /** What sets the pace back to the interval: a drain or a resume that went well, and a kick while sync runs. */
  predicate GoesWell(s: State, ev: Event) {
    || (ev == BodySettles(true) && s.engine.running in {Some(DrainPass), Some(ResumeSync)})
    || (ev.Kick? && !s.paused)
  }

  predicate GoesWrong(s: State, ev: Event) { ev == BodySettles(false) && s.engine.running == Some(DrainPass) }

  /** The failing drains of a run since it last went well; `before` had failed when it began. */
  ghost function Failures(s: State, run: seq<Event>, interval: nat, before: nat): nat
    requires Possible(s, run, interval)
    decreases |run|
  {
    if run == [] then before
    else
      Failures(Step(s, run[0], interval), run[1..], interval,
               if GoesWell(s, run[0]) then 0 else if GoesWrong(s, run[0]) then before + 1 else before)
  }

  /** One step's effect on the pace. */
  lemma PaceStep(s: State, ev: Event, interval: nat)
    requires Enabled(s, ev)
    ensures Step(s, ev, interval).engine.backoff ==
      if GoesWell(s, ev) then interval
      else if GoesWrong(s, ev) then Min(s.engine.backoff * 2, BACKOFF_CAP)
      else s.engine.backoff
  {
    var e := s.engine;
    match ev
    case BodySettles(ok) => SettlePace(e, ok, interval);
    case TickFires => DrainKeepsPace(e.(ticks := e.ticks - 1));
    case NudgeFires => DrainKeepsPace(ClearTick(e.(nudge := false)));
    case Kick => DrainKeepsPace(ClearTick(e).(backoff := interval, fails := 0));
    case _ => OthersKeepPace(s, ev, interval);
  }

  lemma DrainKeepsPace(e: Engine)
    ensures RunExchangeOnce(e).backoff == e.backoff
  {
  }

  lemma OthersKeepPace(s: State, ev: Event, interval: nat)
    requires Enabled(s, ev) && !Requests(s, ev) && !ev.BodySettles? && !ev.Kick?
    ensures Step(s, ev, interval).engine.backoff == s.engine.backoff
  {
    hide Step, Enabled;
    match ev
    case BodyStarts => StartKeepsPace(s, interval);
    case LoopLooks => LookKeepsPace(s, interval);
    case _ => LeverKeepsPace(s, ev, interval);
  }

  lemma StartKeepsPace(s: State, interval: nat)
    requires Enabled(s, BodyStarts)
    ensures Step(s, BodyStarts, interval).engine.backoff == s.engine.backoff
  {
  }

  lemma LookKeepsPace(s: State, interval: nat)
    requires Enabled(s, LoopLooks)
    ensures Step(s, LoopLooks, interval).engine.backoff == s.engine.backoff
  {
  }

  lemma LeverKeepsPace(s: State, ev: Event, interval: nat)
    requires Enabled(s, ev)
    requires ev.LocalWrite? || ev.OwnerResumes? || ev.ResumerResumes? || ev.Submitted? || ev.Pause? || ev.Resume? || ev.Stop?
    ensures Step(s, ev, interval).engine.backoff == s.engine.backoff
  {
  }

  lemma SettlePace(e: Engine, ok: bool, interval: nat)
    requires e.running.Some?
    ensures SettleBody(e, ok, interval).backoff ==
      if ok && e.running.value in {DrainPass, ResumeSync} then interval
      else if !ok && e.running.value.DrainPass? then Min(e.backoff * 2, BACKOFF_CAP)
      else e.backoff
  {
  }

  /** In every run the backoff is the interval doubled once for each failing drain since it last went well, up to the cap. */
  lemma {:induction false} BackoffIsHistory(s: State, run: seq<Event>, interval: nat, before: nat)
    requires interval <= 300000 && Possible(s, run, interval)
    requires s.engine.backoff == Min(interval * Pow2(before), 300000)
    ensures After(s, run, interval).engine.backoff == Min(interval * Pow2(Failures(s, run, interval, before)), 300000)
    decreases |run|
  {
    if run != [] {
      PaceStep(s, run[0], interval);
      BackoffDoubles(interval, before);
      BackoffResets(interval);
      var now := if GoesWell(s, run[0]) then 0 else if GoesWrong(s, run[0]) then before + 1 else before;
      BackoffIsHistory(Step(s, run[0], interval), run[1..], interval, now);
    }
  }

  /** A new engine, whatever happens to it. */
  lemma PaceOfEveryRun(paused: bool, run: seq<Event>, interval: nat)
    requires var s0 := State(paused, NewEngine(paused, interval)); interval <= 300000 && Possible(s0, run, interval)
    ensures var s0 := State(paused, NewEngine(paused, interval));
      var doubled := interval * Pow2(Failures(s0, run, interval, 0));
      After(s0, run, interval).engine.backoff == if doubled < 300000 then doubled else 300000
  {
    BackoffResets(interval);
    BackoffIsHistory(State(paused, NewEngine(paused, interval)), run, interval, 0);
  }
}
