/**
  `createSyncSupervisor` and its entries as objects. Every entry method is one
  synchronous stretch of Supervisor.dfy on its own fields, and every supervisor
  method applies one to each engine it lists, in any order, and to no other.
*/
module SupervisorObject {
  import opened Wrappers
  import opened Supervisor

  class EngineEntry {
    const appId: string
    var liveTicks: nat
    var tickTimer: bool
    var nudgeTimer: bool
    var backoffMs: nat
    var stopped: bool
    var draining: bool
    var rerunRequested: bool
    var waiting: seq<Body>
    var running: Option<Body>
    var passDone: bool
    var returning: nat
    var resumeDone: nat
    ghost var dirty: bool
    ghost var fails: nat

    ghost function Now(): Engine
      reads this
    {
      Engine(liveTicks, tickTimer, nudgeTimer, backoffMs, stopped, draining, rerunRequested,
             waiting, running, passDone, returning, resumeDone, dirty, fails)
    }

    constructor (appId: string, paused: bool, intervalMs: nat)
      ensures Now() == NewEngine(paused, intervalMs) && this.appId == appId
    {
      this.appId := appId;
      liveTicks, tickTimer := if paused then 0 else 1, !paused;
      nudgeTimer, backoffMs, stopped := !paused, intervalMs, false;
      draining, rerunRequested, waiting, running := false, false, [], None;
      passDone, returning, resumeDone, dirty, fails := false, 0, 0, true, 0;
    }

    method ArmTick(paused: bool)
      modifies this
      ensures Now() == ScheduleTick(paused, old(Now()))
    {
      if paused { return; }
      liveTicks, tickTimer := liveTicks + 1, true;
    }

    method ArmNudge(paused: bool)
      modifies this
      ensures Now() == ScheduleNudge(paused, old(Now()))
    {
      if stopped { return; }
      if paused { return; }
      if nudgeTimer { return; }
      nudgeTimer := true;
    }

    method DropTick()
      modifies this
      ensures Now() == ClearTick(old(Now()))
    {
      if tickTimer {
        if liveTicks > 0 { liveTicks := liveTicks - 1; }
        tickTimer := false;
      }
    }

    /** `runner.drain` up to its first await. */
    method Drain()
      modifies this
      ensures Now() == EnterDrain(old(Now()))
    {
      if draining {
        rerunRequested := true;
        return;
      }
      draining := true;
      rerunRequested := false;
      waiting := waiting + [DrainPass];
    }

    method RunExchange()
      modifies this
      ensures Now() == RunExchangeOnce(old(Now()))
    {
      tickTimer := false;
      Drain();
    }

    method PauseEntry()
      modifies this
      ensures Now() == PauseEngine(old(Now()))
    {
      DropTick();
      nudgeTimer := false;
      dirty := dirty || (running.Some? && Syncs(running.value));
    }

    /** `resume`'s exchange goes to the end of this engine's chain. */
    method RunResume()
      modifies this
      ensures Now() == Chain(old(Now()), ResumeSync)
    {
      waiting := waiting + [ResumeSync];
    }

    method KickEntry(intervalMs: nat)
      modifies this
      ensures Now() == KickEngine(old(Now()), intervalMs)
    {
      DropTick();
      backoffMs, fails := intervalMs, 0;
      RunExchange();
    }

    method OnTick(paused: bool, intervalMs: nat)
      requires liveTicks > 0
      modifies this
      ensures State(paused, Now()) == Step(State(paused, old(Now())), TickFires, intervalMs)
    {
      liveTicks := liveTicks - 1;
      RunExchange();
    }

    method OnNudge(paused: bool, intervalMs: nat)
      requires nudgeTimer && !stopped
      modifies this
      ensures State(paused, Now()) == Step(State(paused, old(Now())), NudgeFires, intervalMs)
    {
      nudgeTimer := false;
      DropTick();
      RunExchange();
    }

    /** The chain hands the next body its turn. */
    method Begin(paused: bool, intervalMs: nat)
      requires running.None? && waiting != []
      modifies this
      ensures State(paused, Now()) == Step(State(paused, old(Now())), BodyStarts, intervalMs)
    {
      running := Some(waiting[0]);
      if Syncs(waiting[0]) && !paused && !stopped { dirty := false; }
      waiting := waiting[1..];
    }

    /** A body settles: `driveDrain` and the resume body move the backoff, and their callers wait to go on. */
    method Settle(paused: bool, ok: bool, intervalMs: nat)
      requires running.Some?
      modifies this
      ensures State(paused, Now()) == Step(State(paused, old(Now())), BodySettles(ok), intervalMs)
    {
      match running.value {
        case DrainPass =>
          passDone := true;
          if ok {
            backoffMs, fails := intervalMs, 0;
          } else {
            backoffMs, fails := Min(backoffMs * 2, BACKOFF_CAP), fails + 1;
          }
        case ResumeSync =>
          resumeDone := resumeDone + 1;
          if ok { backoffMs, fails := intervalMs, 0; }
        case Other =>
      }
      running := None;
    }

    /** The drain's do-while, after its pass. */
    method Look(paused: bool, intervalMs: nat)
      requires passDone
      modifies this
      ensures State(paused, Now()) == Step(State(paused, old(Now())), LoopLooks, intervalMs)
    {
      passDone := false;
      if rerunRequested && !(paused || stopped) {
        rerunRequested := false;
        waiting := waiting + [DrainPass];
      } else {
        draining := false;
        returning := returning + 1;
      }
    }

    method OwnerReturns(paused: bool, intervalMs: nat)
      requires returning > 0
      modifies this
      ensures State(paused, Now()) == Step(State(paused, old(Now())), OwnerResumes, intervalMs)
    {
      returning := returning - 1;
      if !paused { ArmTick(paused); }
    }

    method ResumerReturns(paused: bool, intervalMs: nat)
      requires resumeDone > 0
      modifies this
      ensures State(paused, Now()) == Step(State(paused, old(Now())), ResumerResumes, intervalMs)
    {
      resumeDone := resumeDone - 1;
      ArmTick(paused);
    }
  }

  class SyncSupervisor {
    const intervalMs: nat
    var paused: bool
    var engines: map<string, EngineEntry>

    /** An entry is listed under its own app, so no two apps share one. */
    ghost predicate Valid()
      reads this
    {
      forall app :: app in engines ==> engines[app].appId == app
    }

    constructor (intervalMs: nat)
      ensures Valid() && !paused && engines == map[] && this.intervalMs == intervalMs
    {
      this.intervalMs, this.paused, this.engines := intervalMs, false, map[];
    }

    method PauseSync()
      requires Valid()
      modifies this`paused, engines.Values
      ensures paused && engines == old(engines)
      ensures forall app :: app in engines ==> engines[app].Now() == PauseEngine(old(engines[app].Now()))
    {
      hide PauseEngine;
      paused := true;
      var todo := engines.Keys;
      while todo != {}
        invariant paused && todo <= engines.Keys
        invariant forall app :: app in todo ==> engines[app].Now() == old(engines[app].Now())
        invariant forall app :: app in engines && app !in todo ==> engines[app].Now() == PauseEngine(old(engines[app].Now()))
        decreases todo
      {
        var app :| app in todo;
        engines[app].PauseEntry();
        todo := todo - {app};
      }
    }

    method ResumeSyncing()
      requires Valid()
      modifies this`paused, engines.Values
      ensures !paused && engines == old(engines)
      ensures forall app :: app in engines ==> engines[app].Now() == Chain(old(engines[app].Now()), ResumeSync)
    {
      hide Chain;
      paused := false;
      var todo := engines.Keys;
      while todo != {}
        invariant !paused && todo <= engines.Keys
        invariant forall app :: app in todo ==> engines[app].Now() == old(engines[app].Now())
        invariant forall app :: app in engines && app !in todo ==> engines[app].Now() == Chain(old(engines[app].Now()), ResumeSync)
        decreases todo
      {
        var app :| app in todo;
        engines[app].RunResume();
        todo := todo - {app};
      }
    }

    method KickAll()
      requires Valid()
      modifies engines.Values
      ensures forall app :: app in engines ==>
        engines[app].Now() == if paused then old(engines[app].Now()) else KickEngine(old(engines[app].Now()), intervalMs)
    {
      hide KickEngine;
      if paused { return; }
      var todo := engines.Keys;
      while todo != {}
        invariant todo <= engines.Keys
        invariant forall app :: app in todo ==> engines[app].Now() == old(engines[app].Now())
        invariant forall app :: app in engines && app !in todo ==> engines[app].Now() == KickEngine(old(engines[app].Now()), intervalMs)
        decreases todo
      {
        var app :| app in todo;
        engines[app].KickEntry(intervalMs);
        todo := todo - {app};
      }
    }

    /** `local-change-recorded`: only the engine that owns the write's channel is nudged, if there is one. */
    method OnLocalChange(target: string)
      modifies if target in engines then {engines[target]} else {}
      ensures target in engines ==> engines[target].Now() == ScheduleNudge(paused, old(engines[target].Now())).(dirty := true)
    {
      if target !in engines { return; }
      engines[target].ArmNudge(paused);
      engines[target].dirty := true;
    }

    /** `stopEngineFor`, with the empty body `drained` queues behind what still runs. */
    method StopEngineFor(app: string)
      requires Valid()
      modifies this`engines, if app in engines then {engines[app]} else {}
      ensures Valid() && engines == old(engines) - {app}
      ensures app in old(engines) ==>
        old(engines[app]).Now() == StopEngine(old(engines[app].Now()))
    {
      if app !in engines { return; }
      var entry := engines[app];
      entry.stopped := true;
      if entry.tickTimer && entry.liveTicks > 0 { entry.liveTicks := entry.liveTicks - 1; }
      entry.nudgeTimer := false;
      engines := engines - {app};
      entry.waiting := entry.waiting + [Other];
    }

    method StartEngineFor(app: string)
      requires Valid()
      modifies this`engines
      ensures Valid() && app in engines
      ensures app in old(engines) ==> engines == old(engines)
      ensures app !in old(engines) ==> fresh(engines[app]) && engines[app].Now() == NewEngine(paused, intervalMs)
      ensures app !in old(engines) ==> engines == old(engines)[app := engines[app]]
    {
      if app in engines { return; }
      var entry := new EngineEntry(app, paused, intervalMs);
      engines := engines[app := entry];
    }

    /** The entries of apps not to keep. */
    ghost function Unwanted(keep: set<string>): set<EngineEntry>
      reads this
    {
      set app | app in engines && app !in keep :: engines[app]
    }

    /**
     * `rescan`: `active` are the registry's active apps, `noChannel` those without a channel of their own, and
     * `broken` those whose engine cannot be built. One broken app keeps no other from its engine, the entries of
     * apps that stay are left alone, and those of apps that go are stopped.
     */
    method Rescan(hasCredential: bool, active: set<string>, noChannel: set<string>, broken: set<string>)
      requires Valid()
      modifies this`engines, Unwanted(active + noChannel)
      ensures Valid()
      ensures !hasCredential ==> engines == old(engines)
      ensures hasCredential ==>
        forall app :: app in engines <==>
          (app in old(engines) && (app in active || app in noChannel)) || (app in active && app !in noChannel && app !in broken)
      ensures forall app :: app in engines && app in old(engines) ==> engines[app] == old(engines[app])
      ensures forall app :: app in engines && app !in old(engines) ==>
        fresh(engines[app]) && engines[app].Now() == NewEngine(paused, intervalMs)
      ensures forall app :: app in old(engines) && app !in engines ==>
        old(engines[app]).Now() == StopEngine(old(engines[app].Now()))
    {
      hide StopEngine, NewEngine, EngineEntry.Now;
      if !hasCredential { return; }
      var desired := active - noChannel;
      StartMissing(desired - broken);
      StopUnwanted(desired + noChannel);
    }

    method StartMissing(wanted: set<string>)
      requires Valid()
      modifies this`engines
      ensures Valid() && engines.Keys == old(engines).Keys + wanted
      ensures forall app :: app in old(engines) ==> engines[app] == old(engines[app])
      ensures forall app :: app in engines && app !in old(engines) ==>
        fresh(engines[app]) && engines[app].Now() == NewEngine(paused, intervalMs)
    {
      ghost var newborn := NewEngine(paused, intervalMs);
      var todo := wanted;
      while todo != {}
        invariant Valid() && todo <= wanted && engines.Keys == old(engines).Keys + (wanted - todo)
        invariant forall app :: app in old(engines) ==> engines[app] == old(engines[app])
        invariant forall app :: app in engines && app !in old(engines) ==>
          fresh(engines[app]) && engines[app].Now() == newborn
        decreases todo
      {
        var app :| app in todo;
        StartEngineFor(app);
        todo := todo - {app};
      }
    }

    method StopUnwanted(keep: set<string>)
      requires Valid()
      modifies this`engines, Unwanted(keep)
      ensures Valid() && forall app :: app in engines <==> app in old(engines) && app in keep
      ensures forall app :: app in engines ==> engines[app] == old(engines[app])
      ensures forall app :: app in old(engines) && app !in keep ==>
        old(engines[app]).Now() == StopEngine(old(engines[app].Now()))
    {
      hide StopEngine, EngineEntry.Now;
      ghost var all := engines;
      var todo := engines.Keys - keep;
      while todo != {}
        invariant Valid() && todo <= all.Keys - keep
        invariant forall app :: app in engines <==> app in all && (app in keep || app in todo)
        invariant forall app :: app in engines ==> engines[app] == all[app]
        invariant forall app :: app in all ==> all[app].appId == app
        invariant forall app :: app in engines && app !in keep ==> all[app].Now() == old(all[app].Now())
        invariant forall app :: app in all && app !in engines ==> all[app].Now() == StopEngine(old(all[app].Now()))
        decreases todo
      {
        var app :| app in todo;
        StopEngineFor(app);
        todo := todo - {app};
      }
    }
  }
}
