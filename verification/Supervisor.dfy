/**
  The sync supervisor's timer machine, one engine at a time.

  An `Engine` is one `EngineEntry` with its runner. Each event below is one
  synchronous stretch of the source: what runs between one await and the next.
  `paused` is the supervisor's flag, shared by every engine. `ticks` counts the
  live tick timers, `handle` says whether `tickTimer` names one of them: `resume`
  arms a tick without clearing one, and a timer that fires nulls the handle
  whatever it names, so the two differ.

  Bodies on the runner's chain are drain passes, resume syncs and the rest
  (`exchangeAll`, `verifyAll`, the empty body of `drained`). `dirty` and `fails`
  are history: a local write that no sync body has begun to carry since, and the
  failing drains since the backoff was last reset. A body that starts while sync
  is paused or its engine stopped is handed a signal already aborted and carries
  nothing, and one that runs into a pause may have carried nothing.
*/
module Supervisor {
  import opened Wrappers

  const BACKOFF_CAP: nat := 5 * 60 * 1000

  datatype Body = DrainPass | ResumeSync | Other

  datatype Engine = Engine(
    ticks: nat, handle: bool, nudge: bool,
    backoff: nat, stopped: bool,
    draining: bool, rerun: bool,
    waiting: seq<Body>, running: Option<Body>,
    passDone: bool,      // the pass settled, and the drain loop has not looked yet
    returning: nat,      // drains that ended, whose owners have not resumed
    resumeDone: nat,     // resume syncs that settled, whose callers have not resumed
    dirty: bool, fails: nat
  )

  function Min(a: nat, b: nat): nat { if a < b then a else b }

  // ---- The source's functions ----

  function ScheduleTick(paused: bool, e: Engine): Engine {
    if paused then e else e.(ticks := e.ticks + 1, handle := true)
  }

  function ScheduleNudge(paused: bool, e: Engine): Engine {
    if paused || e.stopped then e else e.(nudge := true)
  }

  /** clearTimeout, when `tickTimer` names a timer; a timer that already fired is past clearing. */
  function ClearTimer(e: Engine): Engine {
    if e.handle && e.ticks > 0 then e.(ticks := e.ticks - 1) else e
  }

  function ClearTick(e: Engine): Engine { ClearTimer(e).(handle := false) }

  /** `runner.run`: the body goes to the end of the chain. */
  function Chain(e: Engine, body: Body): Engine { e.(waiting := e.waiting + [body]) }

  /** `runner.drain` up to its first await. */
  function EnterDrain(e: Engine): Engine {
    if e.draining then e.(rerun := true)
    else Chain(e.(draining := true, rerun := false), DrainPass)
  }

  function RunExchangeOnce(e: Engine): Engine { EnterDrain(e.(handle := false)) }

  /** A new entry: a tick, and a nudge for what was written before it existed. */
  function NewEngine(paused: bool, interval: nat): Engine {
    var e := Engine(0, false, false, interval, false, false, false, [], None, false, 0, 0, true, 0);
    ScheduleNudge(paused, ScheduleTick(paused, e))
  }

  // ---- Events ----

  datatype Event =
    | LocalWrite
    | TickFires
    | NudgeFires
    | BodyStarts
    | BodySettles(ok: bool)
    | LoopLooks        // the drain's do-while, after its pass
    | OwnerResumes     // runExchangeOnce, after the drain it owned
    | ResumerResumes   // resume's callback, after its sync
    | Submitted        // exchangeAll, verifyAll, drained
    | Pause
    | Resume
    | Kick
    | Stop             // stopEngineFor

  datatype State = State(paused: bool, engine: Engine)

  predicate Enabled(s: State, ev: Event) {
    var e := s.engine;
    match ev
    case TickFires => e.ticks > 0
    case NudgeFires => e.nudge && !e.stopped
    case BodyStarts => e.running.None? && e.waiting != []
    case BodySettles(_) => e.running.Some?
    case LoopLooks => e.passDone
    case OwnerResumes => e.returning > 0
    case ResumerResumes => e.resumeDone > 0
    case Kick => !e.stopped
    case Stop => !e.stopped
    case LocalWrite => !e.stopped
    case _ => true
  }

  predicate Syncs(b: Body) { b.DrainPass? || b.ResumeSync? }

  function StartBody(paused: bool, e: Engine): Engine
    requires e.waiting != []
  {
    var e1 := e.(running := Some(e.waiting[0]), waiting := e.waiting[1..]);
    if Syncs(e.waiting[0]) && !paused && !e.stopped then e1.(dirty := false) else e1
  }

  function SettleBody(e: Engine, ok: bool, interval: nat): Engine
    requires e.running.Some?
  {
    var e1 := e.(running := None);
    match e.running.value
    case DrainPass =>
      var e2 := e1.(passDone := true);
      if ok then e2.(backoff := interval, fails := 0)
      else e2.(backoff := Min(e.backoff * 2, BACKOFF_CAP), fails := e.fails + 1)
    case ResumeSync =>
      var e2 := e1.(resumeDone := e.resumeDone + 1);
      if ok then e2.(backoff := interval, fails := 0) else e2
    case Other => e1
  }

  function LookAgain(paused: bool, e: Engine): Engine {
    var e1 := e.(passDone := false);
    if e.rerun && !(paused || e.stopped) then Chain(e1.(rerun := false), DrainPass)
    else e1.(draining := false, returning := e.returning + 1)
  }

  function PauseEngine(e: Engine): Engine {
    ClearTick(e).(nudge := false, dirty := e.dirty || (e.running.Some? && Syncs(e.running.value)))
  }

  function KickEngine(e: Engine, interval: nat): Engine {
    RunExchangeOnce(ClearTick(e).(backoff := interval, fails := 0))
  }

  function StopEngine(e: Engine): Engine {
    Chain(ClearTimer(e).(stopped := true, nudge := false), Other)
  }

  function Step(s: State, ev: Event, interval: nat): State
    requires Enabled(s, ev)
  {
    var e, paused := s.engine, s.paused;
    match ev
    case LocalWrite => State(paused, ScheduleNudge(paused, e).(dirty := true))
    case TickFires => State(paused, RunExchangeOnce(e.(ticks := e.ticks - 1)))
    case NudgeFires => State(paused, RunExchangeOnce(ClearTick(e.(nudge := false))))
    case BodyStarts => State(paused, StartBody(paused, e))
    case BodySettles(ok) => State(paused, SettleBody(e, ok, interval))
    case LoopLooks => State(paused, LookAgain(paused, e))
    case OwnerResumes => State(paused, ScheduleTick(paused, e.(returning := e.returning - 1)))
    case ResumerResumes => State(paused, ScheduleTick(paused, e.(resumeDone := e.resumeDone - 1)))
    case Submitted => State(paused, Chain(e, Other))
    case Pause => State(true, if e.stopped then e else PauseEngine(e))
    case Resume => State(false, if e.stopped then e else Chain(e, ResumeSync))
    case Kick => if paused then s else State(paused, KickEngine(e, interval))
    case Stop => State(paused, StopEngine(e))
  }

  ghost predicate Possible(s: State, run: seq<Event>, interval: nat)
    decreases |run|
  {
    run == [] || (Enabled(s, run[0]) && Possible(Step(s, run[0], interval), run[1..], interval))
  }

  ghost function After(s: State, run: seq<Event>, interval: nat): State
    requires Possible(s, run, interval)
    decreases |run|
  {
    if run == [] then s else After(Step(s, run[0], interval), run[1..], interval)
  }

  lemma RunFrom(s: State, ev: Event, rest: seq<Event>, interval: nat)
    requires Enabled(s, ev) && Possible(Step(s, ev, interval), rest, interval)
    ensures Possible(s, [ev] + rest, interval)
    ensures After(s, [ev] + rest, interval) == After(Step(s, ev, interval), rest, interval)
  {
  }
}
