/**
  What the supervisor keeps in every interleaving: no local write is lost, the
  loop never goes silent, one drain at a time, and the backoff doubles to its cap.
*/
module SupervisorSafety {
  import opened Wrappers
  import opened Supervisor

  function Count(bodies: seq<Body>, b: Body): nat {
    if bodies == [] then 0 else (if bodies[0] == b then 1 else 0) + Count(bodies[1..], b)
  }

  lemma {:induction false} CountAppend(bodies: seq<Body>, x: Body, b: Body)
    ensures Count(bodies + [x], b) == Count(bodies, b) + (if x == b then 1 else 0)
  {
    if bodies == [] {
      assert bodies + [x] == [x];
    } else {
      assert (bodies + [x])[1..] == bodies[1..] + [x];
      CountAppend(bodies[1..], x, b);
    }
  }

  function OneIf(b: bool): nat { if b then 1 else 0 }

  /** Bodies of one kind that are queued or running. */
  function OnChain(e: Engine, b: Body): nat {
    Count(e.waiting, b) + OneIf(e.running == Some(b))
  }

  function Resuming(e: Engine): nat { OnChain(e, ResumeSync) + e.resumeDone }

  /** Where the first sync body is in the queue, or the queue's length. */
  function FirstSync(bodies: seq<Body>): (i: nat)
    ensures i <= |bodies|
  {
    if bodies == [] || Syncs(bodies[0]) then 0 else 1 + FirstSync(bodies[1..])
  }

  predicate SyncWaits(e: Engine) { FirstSync(e.waiting) < |e.waiting| }

  lemma {:induction false} FirstSyncAppend(bodies: seq<Body>, x: Body)
    ensures FirstSync(bodies + [x]) ==
      if FirstSync(bodies) < |bodies| then FirstSync(bodies) else if Syncs(x) then |bodies| else |bodies| + 1
  {
    if bodies == [] {
      assert bodies + [x] == [x] && [x][1..] == [];
    } else {
      assert (bodies + [x])[1..] == bodies[1..] + [x];
      FirstSyncAppend(bodies[1..], x);
    }
  }

  lemma {:induction false} NoSyncNoPass(bodies: seq<Body>)
    requires FirstSync(bodies) == |bodies|
    ensures Count(bodies, DrainPass) == 0
  {
    if bodies != [] { NoSyncNoPass(bodies[1..]); }
  }

  /** A write not yet seen by a sync body will be: a nudge is armed, a rerun owed, or a sync body queued. */
  predicate Covered(e: Engine) { e.nudge || (e.draining && e.rerun) || SyncWaits(e) }

  /** Something will arm the next tick, or one is armed. */
  predicate Alive(e: Engine) { e.ticks > 0 || e.draining || e.returning > 0 || Resuming(e) > 0 }

  function Pow2(k: nat): nat { if k == 0 then 1 else 2 * Pow2(k - 1) }

  predicate Inv(s: State, interval: nat) {
    var e := s.engine;
    && (!e.stopped && e.handle ==> e.ticks > 0 && !s.paused)
    && (e.nudge ==> !e.stopped && !s.paused)
    && OnChain(e, DrainPass) + OneIf(e.passDone) == OneIf(e.draining)
    && (!s.paused && !e.stopped ==> Alive(e) && (e.dirty ==> Covered(e)))
    && (interval <= BACKOFF_CAP ==> e.backoff == Min(interval * Pow2(e.fails), BACKOFF_CAP))
  }

  lemma StartIsSafe(paused: bool, interval: nat)
    ensures Inv(State(paused, NewEngine(paused, interval)), interval)
  {
  }

  // ---- Steps ----

  lemma ChainCounts(e: Engine, x: Body, b: Body)
    ensures OnChain(Chain(e, x), b) == OnChain(e, b) + OneIf(x == b)
  {
    CountAppend(e.waiting, x, b);
  }

  lemma ChainWaits(e: Engine, x: Body)
    ensures SyncWaits(Chain(e, x)) <==> SyncWaits(e) || Syncs(x)
    ensures SyncWaits(e) ==> FirstSync(Chain(e, x).waiting) == FirstSync(e.waiting)
  {
    FirstSyncAppend(e.waiting, x);
  }

  /** The parts of the invariant a step on one engine can move. */
  predicate EngineOk(e: Engine) {
    OnChain(e, DrainPass) + OneIf(e.passDone) == OneIf(e.draining)
  }

  lemma EnterDrainStep(e: Engine)
    requires EngineOk(e)
    ensures var e1 := EnterDrain(e);
      && EngineOk(e1) && Covered(e1) && Alive(e1) && e1.draining
      && e1.ticks == e.ticks && e1.handle == e.handle && e1.nudge == e.nudge && e1.stopped == e.stopped
      && e1.backoff == e.backoff && e1.fails == e.fails && Resuming(e1) == Resuming(e) && e1.returning == e.returning
  {
    if !e.draining {
      var e0 := e.(draining := true, rerun := false);
      ChainCounts(e0, DrainPass, DrainPass);
      ChainCounts(e0, DrainPass, ResumeSync);
      ChainWaits(e0, DrainPass);
    }
  }

  lemma StartBodyStep(paused: bool, e: Engine)
    requires EngineOk(e) && e.running.None? && e.waiting != []
    ensures var e1 := StartBody(paused, e);
      && EngineOk(e1) && Resuming(e1) == Resuming(e)
      && (!Syncs(e.waiting[0]) ==> FirstSync(e.waiting) == FirstSync(e1.waiting) + 1)
  {
  }

  lemma BackoffDoubles(interval: nat, k: nat)
    ensures Min(Min(interval * Pow2(k), BACKOFF_CAP) * 2, BACKOFF_CAP) == Min(interval * Pow2(k + 1), BACKOFF_CAP)
  {
  }

  lemma BackoffResets(interval: nat)
    requires interval <= BACKOFF_CAP
    ensures interval == Min(interval * Pow2(0), BACKOFF_CAP)
  {
  }

  lemma SettleStep(s: State, ok: bool, interval: nat)
    requires Inv(s, interval) && s.engine.running.Some?
    ensures Inv(State(s.paused, SettleBody(s.engine, ok, interval)), interval)
    ensures Resuming(SettleBody(s.engine, ok, interval)) == Resuming(s.engine)
  {
    var e1 := SettleBody(s.engine, ok, interval);
    BackoffDoubles(interval, s.engine.fails);
    if interval <= BACKOFF_CAP { BackoffResets(interval); }
  }

  lemma LookStep(s: State, interval: nat)
    requires Inv(s, interval) && s.engine.passDone
    ensures Inv(State(s.paused, LookAgain(s.paused, s.engine)), interval)
    ensures Resuming(LookAgain(s.paused, s.engine)) == Resuming(s.engine)
  {
    var e1 := s.engine.(passDone := false, rerun := false);
    ChainCounts(e1, DrainPass, DrainPass);
    ChainCounts(e1, DrainPass, ResumeSync);
    ChainWaits(e1, DrainPass);
  }

  // One lemma for each event, and `StepKeepsInv` puts them together.

  lemma WriteKeeps(s: State, interval: nat)
    requires Inv(s, interval) && Enabled(s, LocalWrite)
    ensures Inv(Step(s, LocalWrite, interval), interval)
  {
  }

  lemma TickKeeps(s: State, interval: nat)
    requires Inv(s, interval) && Enabled(s, TickFires)
    ensures Inv(Step(s, TickFires, interval), interval)
  {
    EnterDrainStep(s.engine.(ticks := s.engine.ticks - 1, handle := false));
  }

  lemma NudgeKeeps(s: State, interval: nat)
    requires Inv(s, interval) && Enabled(s, NudgeFires)
    ensures Inv(Step(s, NudgeFires, interval), interval)
  {
    EnterDrainStep(ClearTick(s.engine.(nudge := false)));
  }

  lemma KickKeeps(s: State, interval: nat)
    requires Inv(s, interval) && Enabled(s, Kick)
    ensures Inv(Step(s, Kick, interval), interval)
  {
    EnterDrainStep(ClearTick(s.engine).(backoff := interval, fails := 0));
    if interval <= BACKOFF_CAP { BackoffResets(interval); }
  }

  lemma StartKeeps(s: State, interval: nat)
    requires Inv(s, interval) && Enabled(s, BodyStarts)
    ensures Inv(Step(s, BodyStarts, interval), interval)
  {
    StartBodyStep(s.paused, s.engine);
  }

  lemma SettleKeeps(s: State, ok: bool, interval: nat)
    requires Inv(s, interval) && Enabled(s, BodySettles(ok))
    ensures Inv(Step(s, BodySettles(ok), interval), interval)
  {
    SettleStep(s, ok, interval);
  }

  lemma LookKeeps(s: State, interval: nat)
    requires Inv(s, interval) && Enabled(s, LoopLooks)
    ensures Inv(Step(s, LoopLooks, interval), interval)
  {
    LookStep(s, interval);
  }

  lemma OwnerKeeps(s: State, interval: nat)
    requires Inv(s, interval) && Enabled(s, OwnerResumes)
    ensures Inv(Step(s, OwnerResumes, interval), interval)
  {
  }

  lemma ResumerKeeps(s: State, interval: nat)
    requires Inv(s, interval) && Enabled(s, ResumerResumes)
    ensures Inv(Step(s, ResumerResumes, interval), interval)
  {
  }

  lemma SubmittedKeeps(s: State, interval: nat)
    requires Inv(s, interval)
    ensures Inv(Step(s, Submitted, interval), interval)
  {
    OtherStep(s.engine);
  }

  lemma PauseKeeps(s: State, interval: nat)
    requires Inv(s, interval)
    ensures Inv(Step(s, Pause, interval), interval)
  {
  }

  lemma ResumeKeeps(s: State, interval: nat)
    requires Inv(s, interval)
    ensures Inv(Step(s, Resume, interval), interval)
  {
    ChainCounts(s.engine, ResumeSync, DrainPass);
    ChainCounts(s.engine, ResumeSync, ResumeSync);
    ChainWaits(s.engine, ResumeSync);
  }

  lemma StopKeeps(s: State, interval: nat)
    requires Inv(s, interval) && Enabled(s, Stop)
    ensures Inv(Step(s, Stop, interval), interval)
  {
    OtherStep(ClearTimer(s.engine).(stopped := true, nudge := false));
  }

  lemma {:induction false} StepKeepsInv(s: State, ev: Event, interval: nat)
    requires Inv(s, interval) && Enabled(s, ev)
    ensures Inv(Step(s, ev, interval), interval)
  {
    hide Inv, Step, Enabled;
    match ev
    case LocalWrite => WriteKeeps(s, interval);
    case TickFires => TickKeeps(s, interval);
    case NudgeFires => NudgeKeeps(s, interval);
    case Kick => KickKeeps(s, interval);
    case BodyStarts => StartKeeps(s, interval);
    case BodySettles(ok) => SettleKeeps(s, ok, interval);
    case LoopLooks => LookKeeps(s, interval);
    case OwnerResumes => OwnerKeeps(s, interval);
    case ResumerResumes => ResumerKeeps(s, interval);
    case Submitted => SubmittedKeeps(s, interval);
    case Pause => PauseKeeps(s, interval);
    case Resume => ResumeKeeps(s, interval);
    case Stop => StopKeeps(s, interval);
  }

  lemma OtherStep(e: Engine)
    ensures OnChain(Chain(e, Other), DrainPass) == OnChain(e, DrainPass)
    ensures OnChain(Chain(e, Other), ResumeSync) == OnChain(e, ResumeSync)
    ensures SyncWaits(Chain(e, Other)) <==> SyncWaits(e)
  {
    ChainCounts(e, Other, DrainPass);
    ChainCounts(e, Other, ResumeSync);
    ChainWaits(e, Other);
  }

  /** From its start, whatever happens in whatever order, an engine stays safe. */
  lemma {:induction false} RunKeepsInv(s: State, run: seq<Event>, interval: nat)
    requires Inv(s, interval) && Possible(s, run, interval)
    ensures Inv(After(s, run, interval), interval)
    decreases |run|
  {
    if run != [] {
      StepKeepsInv(s, run[0], interval);
      RunKeepsInv(Step(s, run[0], interval), run[1..], interval);
    }
  }

  /** No lost write, a loop that is never silent, at most one pass of one drain, and the backoff's law. */
  lemma SafeInEveryRun(paused: bool, interval: nat, run: seq<Event>)
    requires Possible(State(paused, NewEngine(paused, interval)), run, interval)
    ensures var s := After(State(paused, NewEngine(paused, interval)), run, interval); var e := s.engine;
      && (!s.paused && !e.stopped && e.dirty ==> Covered(e))
      && (!s.paused && !e.stopped ==> Alive(e))
      && OnChain(e, DrainPass) + OneIf(e.passDone) == OneIf(e.draining)
      && (interval <= BACKOFF_CAP ==> e.backoff == Min(interval * Pow2(e.fails), BACKOFF_CAP))
  {
    StartIsSafe(paused, interval);
    RunKeepsInv(State(paused, NewEngine(paused, interval)), run, interval);
  }

  // ---- A covered write is reached ----

  /** How far a covered write is from the start of a sync body: a stage, and steps within it. */
  function Rank(e: Engine): (nat, nat) {
    if SyncWaits(e) then (0, 2 * FirstSync(e.waiting) + OneIf(e.running.Some?))
    else if e.draining && e.rerun then (1, OneIf(!e.passDone))
    else (2, 0)
  }

  predicate Below(a: (nat, nat), b: (nat, nat)) { a.0 < b.0 || (a.0 == b.0 && a.1 < b.1) }

  /** The engine's own next step towards that start. */
  function Next(e: Engine, ok: bool): Event {
    if SyncWaits(e) then (if e.running.Some? then BodySettles(ok) else BodyStarts)
    else if e.draining && e.rerun then (if e.passDone then LoopLooks else BodySettles(ok))
    else NudgeFires
  }

  predicate Owed(s: State) { !s.paused && !s.engine.stopped && s.engine.dirty }

  /** Entering a drain never moves a write's sync body away, and from the last stage brings it nearer. */
  lemma DrainRank(e: Engine)
    ensures !Below(Rank(e), Rank(EnterDrain(e)))
    ensures Rank(e).0 == 2 ==> Rank(EnterDrain(e)).0 < 2
  {
    if !e.draining {
      ChainWaits(e.(draining := true, rerun := false), DrainPass);
    }
  }

  /** The next step towards the write's sync body is always possible, and either starts it or is nearer to it. */
  lemma NextAdvances(s: State, ok: bool, interval: nat)
    requires Inv(s, interval) && Owed(s)
    ensures Enabled(s, Next(s.engine, ok))
    ensures var s1 := Step(s, Next(s.engine, ok), interval);
      Owed(s1) ==> Below(Rank(s1.engine), Rank(s.engine))
  {
    var e := s.engine;
    if SyncWaits(e) {
      if e.running.None? { StartBodyStep(s.paused, e); } else { SettlingAdvances(e, ok, interval); }
    } else if e.draining && e.rerun {
      if e.passDone {
        ChainWaits(e.(passDone := false, rerun := false), DrainPass);
      } else {
        NoSyncNoPass(e.waiting);
        SettlingAdvances(e, ok, interval);
      }
    } else {
      DrainRank(e.(nudge := false, ticks := ClearTick(e).ticks, handle := false));
    }
  }

  /** A body that settles brings every sync body behind it, and an owed rerun, a step nearer. */
  lemma SettlingAdvances(e: Engine, ok: bool, interval: nat)
    requires e.running.Some?
    requires SyncWaits(e) || (e.draining && e.rerun && !e.passDone && e.running == Some(DrainPass))
    ensures Below(Rank(SettleBody(e, ok, interval)), Rank(e))
  {
  }

  lemma DrainSetsNothingBack(e: Engine, e0: Engine)
    requires e0.waiting == e.waiting && e0.running == e.running
    requires e0.draining == e.draining && e0.rerun == e.rerun && e0.passDone == e.passDone
    ensures !Below(Rank(e), Rank(RunExchangeOnce(e0)))
  {
    assert Rank(e0.(handle := false)) == Rank(e);
    DrainRank(e0.(handle := false));
  }

  lemma StartSetsNothingBack(s: State, interval: nat)
    requires Inv(s, interval) && Owed(s) && Enabled(s, BodyStarts)
    ensures var s1 := Step(s, BodyStarts, interval); Owed(s1) ==> !Below(Rank(s.engine), Rank(s1.engine))
  {
    StartBodyStep(s.paused, s.engine);
  }

  lemma SettleSetsNothingBack(s: State, ok: bool, interval: nat)
    requires Owed(s) && Enabled(s, BodySettles(ok))
    ensures !Below(Rank(s.engine), Rank(Step(s, BodySettles(ok), interval).engine))
  {
  }

  lemma LookSetsNothingBack(s: State, interval: nat)
    requires Inv(s, interval) && Owed(s) && Enabled(s, LoopLooks)
    ensures !Below(Rank(s.engine), Rank(Step(s, LoopLooks, interval).engine))
  {
    ChainWaits(s.engine.(passDone := false, rerun := false), DrainPass);
  }

  lemma RequestSetsNothingBack(s: State, ev: Event, interval: nat)
    requires Owed(s) && Enabled(s, ev) && (ev.TickFires? || ev.NudgeFires? || ev.Kick?)
    ensures !Below(Rank(s.engine), Rank(Step(s, ev, interval).engine))
  {
    var e := s.engine;
    match ev
    case TickFires => DrainSetsNothingBack(e, e.(ticks := e.ticks - 1));
    case NudgeFires => DrainSetsNothingBack(e, ClearTick(e.(nudge := false)));
    case Kick => DrainSetsNothingBack(e, ClearTick(e).(backoff := interval, fails := 0));
  }

  lemma ChainSetsNothingBack(s: State, ev: Event, interval: nat)
    requires Owed(s) && (ev.Submitted? || ev.Resume?)
    ensures !Below(Rank(s.engine), Rank(Step(s, ev, interval).engine))
  {
    ChainWaits(s.engine, Other);
    ChainWaits(s.engine, ResumeSync);
  }

  lemma ReturnSetsNothingBack(s: State, ev: Event, interval: nat)
    requires Owed(s) && Enabled(s, ev) && (ev.LocalWrite? || ev.OwnerResumes? || ev.ResumerResumes?)
    ensures !Below(Rank(s.engine), Rank(Step(s, ev, interval).engine))
  {
  }

  /** Nothing but a pause or a stop takes an owed write further from its sync body. */
  lemma {:induction false} NothingSetsBack(s: State, ev: Event, interval: nat)
    requires Inv(s, interval) && Owed(s) && Enabled(s, ev) && !ev.Pause? && !ev.Stop?
    ensures var s1 := Step(s, ev, interval); Owed(s1) ==> !Below(Rank(s.engine), Rank(s1.engine))
  {
    hide Inv, Step, Enabled, Owed, Below, Rank;
    match ev
    case BodyStarts => StartSetsNothingBack(s, interval);
    case BodySettles(ok) => SettleSetsNothingBack(s, ok, interval);
    case LoopLooks => LookSetsNothingBack(s, interval);
    case TickFires => RequestSetsNothingBack(s, ev, interval);
    case NudgeFires => RequestSetsNothingBack(s, ev, interval);
    case Kick => RequestSetsNothingBack(s, ev, interval);
    case Submitted => ChainSetsNothingBack(s, ev, interval);
    case Resume => ChainSetsNothingBack(s, ev, interval);
    case LocalWrite => ReturnSetsNothingBack(s, ev, interval);
    case OwnerResumes => ReturnSetsNothingBack(s, ev, interval);
    case ResumerResumes => ReturnSetsNothingBack(s, ev, interval);
  }
}
