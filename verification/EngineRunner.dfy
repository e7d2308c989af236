/**
  One engine, one operation at a time: the promise chain behind `run`.

  A body is a list of awaited reads and writes of its app's sync-state rows, with
  a scratch state between them, so another body could interleave at every step.
  `run` chains each body behind the one before it, whichever way that one settles.
  `Serialisable` says that however the event loop schedules any number of engines,
  bodies of one engine never overlap, and the rows each engine leaves are those of
  running its bodies one by one in submission order, each as far as it got before
  it finished or threw.
*/
module EngineRunner {
  import opened Wrappers
  import opened SyncState

  type Scratch = seq<string>

  datatype Op =
    | Read(suffix: Suffix, keep: (Scratch, Option<string>) -> Scratch)
    | Write(suffix: Suffix, value: Scratch -> string)

  datatype Status = Waiting | Running | Fulfilled | Rejected

  /** One body handed to `run`: what it does, how far it got, and what it remembers. */
  datatype Task = Task(ops: seq<Op>, status: Status, done: nat, scratch: Scratch)

  predicate Settled(t: Task) { t.status.Fulfilled? || t.status.Rejected? }

  // ---- One step of a body, alone and on the shared table ----

  datatype Local = Local(scratch: Scratch, view: View)

  function Lookup(view: View, s: Suffix): Option<string> {
    if s in view then Some(view[s]) else None
  }

  function Do(op: Op, l: Local): Local {
    match op
    case Read(s, keep) => Local(keep(l.scratch, Lookup(l.view, s)), l.view)
    case Write(s, value) => Local(l.scratch, l.view[s := value(l.scratch)])
  }

  function DoAll(ops: seq<Op>, l: Local): Local {
    if ops == [] then l else Do(ops[|ops| - 1], DoAll(ops[..|ops| - 1], l))
  }

  /** The bodies run one by one, each from an empty scratch state, as far as each one got. */
  function OneByOne(tasks: seq<Task>, view: View): View
    requires forall t :: t in tasks ==> t.done <= |t.ops|
  {
    if tasks == [] then view
    else
      var last := tasks[|tasks| - 1];
      DoAll(last.ops[..last.done], Local([], OneByOne(tasks[..|tasks| - 1], view))).view
  }

  // ---- The machine ----

  datatype Machine = Machine(table: Table, tasks: map<string, seq<Task>>)

  datatype Event =
    | Submitted(app: string, ops: seq<Op>)
    | Started(app: string, i: nat)
    | Stepped(app: string, i: nat)
    | Finished(app: string, i: nat)
    | Threw(app: string, i: nat)

  /** `lock.then(body, body)`: a body starts once the one before it has settled, either way. */
  predicate ChainReleases(tasks: seq<Task>, i: nat) {
    i < |tasks| && tasks[i].status.Waiting? && (i == 0 || Settled(tasks[i - 1]))
  }

  predicate Enabled(m: Machine, e: Event) {
    e.app in m.tasks &&
    var ts := m.tasks[e.app];
    match e
    case Submitted(_, _) => true
    case Started(_, i) => ChainReleases(ts, i)
    case Stepped(_, i) => i < |ts| && ts[i].status.Running? && ts[i].done < |ts[i].ops|
    case Finished(_, i) => i < |ts| && ts[i].status.Running? && ts[i].done == |ts[i].ops|
    case Threw(_, i) => i < |ts| && ts[i].status.Running?
  }

  function WriteBack(table: Table, app: string, op: Op, scratch: Scratch): Table {
    if op.Write? then table[Key(app, op.suffix) := op.value(scratch)] else table
  }

  function NextScratch(table: Table, app: string, op: Op, scratch: Scratch): Scratch {
    if op.Write? then scratch
    else op.keep(scratch, if Key(app, op.suffix) in table then Some(table[Key(app, op.suffix)]) else None)
  }

  /** A running body after its next awaited read or write. */
  function Advanced(table: Table, app: string, t: Task): Task
    requires t.done < |t.ops|
  {
    t.(done := t.done + 1, scratch := NextScratch(table, app, t.ops[t.done], t.scratch))
  }

  function Step(m: Machine, e: Event): Machine
    requires Enabled(m, e)
  {
    var ts := m.tasks[e.app];
    match e
    case Submitted(_, ops) => m.(tasks := m.tasks[e.app := ts + [Task(ops, Waiting, 0, [])]])
    case Started(_, i) => m.(tasks := m.tasks[e.app := ts[i := ts[i].(status := Running)]])
    case Finished(_, i) => m.(tasks := m.tasks[e.app := ts[i := ts[i].(status := Fulfilled)]])
    case Threw(_, i) => m.(tasks := m.tasks[e.app := ts[i := ts[i].(status := Rejected)]])
    case Stepped(_, i) =>
      var t := ts[i];
      Machine(WriteBack(m.table, e.app, t.ops[t.done], t.scratch), m.tasks[e.app := ts[i := Advanced(m.table, e.app, t)]])
  }

  ghost predicate Possible(m: Machine, run: seq<Event>)
    decreases |run|
  {
    run == [] || (Enabled(m, run[0]) && Possible(Step(m, run[0]), run[1..]))
  }

  ghost function After(m: Machine, run: seq<Event>): Machine
    requires Possible(m, run)
    decreases |run|
  {
    if run == [] then m else After(Step(m, run[0]), run[1..])
  }

  // ---- The invariant ----

  predicate Fresh(t: Task) { t.status.Waiting? && t.done == 0 && t.scratch == [] }

  /** The first `n` bodies have settled, the next may be running, the rest have not begun. */
  ghost predicate Lined(ts: seq<Task>, n: nat) {
    && n <= |ts|
    && (forall i :: 0 <= i < |ts| ==> ts[i].done <= |ts[i].ops|)
    && (forall i :: 0 <= i < n ==> Settled(ts[i]))
    && (forall i :: n < i < |ts| ==> Fresh(ts[i]))
    && (n < |ts| ==> ts[n].status.Running? || Fresh(ts[n]))
  }

  /** The rows are the serial ones, and the running body is where it would be alone. */
  ghost predicate Serial(ts: seq<Task>, n: nat, start: View, now: View)
    requires Lined(ts, n)
  {
    if n < |ts|
    then DoAll(ts[n].ops[..ts[n].done], Local([], OneByOne(ts[..n], start))) == Local(ts[n].scratch, now)
    else OneByOne(ts, start) == now
  }

  ghost predicate AppInv(m0: Machine, m: Machine, app: string, n: nat) {
    && app in m.tasks && Lined(m.tasks[app], n)
    && Serial(m.tasks[app], n, ViewOf(m0.table, app), ViewOf(m.table, app))
  }

  ghost predicate Inv(m0: Machine, m: Machine) {
    forall app :: app in m.tasks ==> exists n: nat :: AppInv(m0, m, app, n)
  }

  lemma SettleMovesOn(ts: seq<Task>, n: nat, status: Status, start: View, now: View)
    requires Lined(ts, n) && n < |ts| && ts[n].status.Running? && (status.Fulfilled? || status.Rejected?)
    requires Serial(ts, n, start, now)
    ensures var ts1 := ts[n := ts[n].(status := status)];
      Lined(ts1, n + 1) && Serial(ts1, n + 1, start, now)
  {
    var ts1 := ts[n := ts[n].(status := status)];
    assert ts1[..n + 1][..n] == ts[..n];
    assert ts1[..n + 1][n] == ts1[n];
    if n + 1 < |ts1| {
      assert ts1[n + 1].ops[..0] == [];
    } else {
      assert ts1[..n + 1] == ts1;
    }
  }

  lemma SubmitKeeps(ts: seq<Task>, n: nat, ops: seq<Op>, start: View, now: View)
    requires Lined(ts, n) && Serial(ts, n, start, now)
    ensures var ts1 := ts + [Task(ops, Waiting, 0, [])];
      Lined(ts1, n) && Serial(ts1, n, start, now)
  {
    var ts1 := ts + [Task(ops, Waiting, 0, [])];
    assert ts1[..n] == ts[..n];
    if n == |ts| {
      assert ts1[n].ops[..0] == [];
      assert ts[..n] == ts;
    }
  }

  lemma StartKeeps(ts: seq<Task>, n: nat, i: nat, start: View, now: View)
    requires Lined(ts, n) && Serial(ts, n, start, now) && ChainReleases(ts, i)
    ensures i == n && Lined(ts[i := ts[i].(status := Running)], n) && Serial(ts[i := ts[i].(status := Running)], n, start, now)
  {
  }

  /** A body's step on the shared table is its step alone on its own rows. */
  lemma StepIsLocal(table: Table, app: string, op: Op, scratch: Scratch)
    ensures Do(op, Local(scratch, ViewOf(table, app))) ==
      Local(NextScratch(table, app, op, scratch), ViewOf(WriteBack(table, app, op, scratch), app))
  {
    if op.Write? {
      WriteSeenByOwnerOnly(table, app, op.suffix, op.value(scratch), app);
    }
  }

  lemma OneMoreOp(ops: seq<Op>, done: nat, l: Local)
    requires done < |ops|
    ensures DoAll(ops[..done + 1], l) == Do(ops[done], DoAll(ops[..done], l))
  {
    assert ops[..done + 1][..done] == ops[..done];
  }

  lemma AdvanceKeeps(ts: seq<Task>, n: nat, table: Table, app: string, start: View)
    requires Lined(ts, n) && n < |ts| && ts[n].status.Running? && ts[n].done < |ts[n].ops|
    requires Serial(ts, n, start, ViewOf(table, app))
    ensures var t1 := Advanced(table, app, ts[n]);
      Lined(ts[n := t1], n)
      && Serial(ts[n := t1], n, start, ViewOf(WriteBack(table, app, ts[n].ops[ts[n].done], ts[n].scratch), app))
  {
    AdvancedIsOnItsWay(ts[n], table, app, Local([], OneByOne(ts[..n], start)));
    SerialWith(ts, n, Advanced(table, app, ts[n]), start,
               ViewOf(WriteBack(table, app, ts[n].ops[ts[n].done], ts[n].scratch), app));
  }

  lemma AdvancedIsOnItsWay(t: Task, table: Table, app: string, l: Local)
    requires t.done < |t.ops| && DoAll(t.ops[..t.done], l) == Local(t.scratch, ViewOf(table, app))
    ensures var t1 := Advanced(table, app, t);
      DoAll(t1.ops[..t1.done], l) == Local(t1.scratch, ViewOf(WriteBack(table, app, t.ops[t.done], t.scratch), app))
  {
    StepIsLocal(table, app, t.ops[t.done], t.scratch);
    OneMoreOp(t.ops, t.done, l);
  }

  lemma SerialWith(ts: seq<Task>, n: nat, t1: Task, start: View, now: View)
    requires Lined(ts, n) && n < |ts| && t1.status.Running? && t1.done <= |t1.ops|
    requires DoAll(t1.ops[..t1.done], Local([], OneByOne(ts[..n], start))) == Local(t1.scratch, now)
    ensures Lined(ts[n := t1], n) && Serial(ts[n := t1], n, start, now)
  {
  }

  lemma OwnStep(m0: Machine, m: Machine, e: Event, n: nat) returns (n1: nat)
    requires Enabled(m, e) && AppInv(m0, m, e.app, n)
    ensures AppInv(m0, Step(m, e), e.app, n1)
  {
    var ts := m.tasks[e.app];
    var start, now := ViewOf(m0.table, e.app), ViewOf(m.table, e.app);
    n1 := n;
    hide OneByOne, DoAll;
    match e
    case Submitted(_, ops) => SubmitKeeps(ts, n, ops, start, now);
    case Started(_, i) => StartKeeps(ts, n, i, start, now);
    case Stepped(_, i) => AdvanceKeeps(ts, n, m.table, e.app, start);
    case Finished(_, i) =>
      SettleMovesOn(ts, n, Fulfilled, start, now);
      n1 := n + 1;
    case Threw(_, i) =>
      SettleMovesOn(ts, n, Rejected, start, now);
      n1 := n + 1;
  }

  /** No step of one app's engine is visible in another app's rows. */
  lemma OtherStep(m0: Machine, m: Machine, e: Event, app: string, n: nat)
    requires Enabled(m, e) && e.app != app && AppInv(m0, m, app, n)
    ensures AppInv(m0, Step(m, e), app, n)
    ensures ViewOf(Step(m, e).table, app) == ViewOf(m.table, app) && Step(m, e).tasks[app] == m.tasks[app]
  {
    if e.Stepped? {
      var t := m.tasks[e.app][e.i];
      var op := t.ops[t.done];
      if op.Write? {
        WriteSeenByOwnerOnly(m.table, e.app, op.suffix, op.value(t.scratch), app);
      }
    }
  }

  lemma StepKeepsInv(m0: Machine, m: Machine, e: Event)
    requires Inv(m0, m) && Enabled(m, e)
    ensures Inv(m0, Step(m, e))
  {
    forall app | app in Step(m, e).tasks ensures exists n: nat :: AppInv(m0, Step(m, e), app, n) {
      var n: nat :| AppInv(m0, m, app, n);
      if app == e.app {
        var n1 := OwnStep(m0, m, e, n);
      } else {
        OtherStep(m0, m, e, app, n);
      }
    }
  }

  /** Engines before anything was asked of them. */
  predicate Idle(m: Machine) { forall app :: app in m.tasks ==> m.tasks[app] == [] }

  lemma {:induction false} RunKeepsInv(m0: Machine, m: Machine, run: seq<Event>)
    requires Inv(m0, m) && Possible(m, run)
    ensures Inv(m0, After(m, run))
    decreases |run|
  {
    if run != [] {
      StepKeepsInv(m0, m, run[0]);
      RunKeepsInv(m0, Step(m, run[0]), run[1..]);
    }
  }

  lemma Reached(m0: Machine, run: seq<Event>, app: string) returns (n: nat)
    requires Idle(m0) && Possible(m0, run) && app in After(m0, run).tasks
    ensures AppInv(m0, After(m0, run), app, n)
  {
    forall a | a in m0.tasks ensures exists k: nat :: AppInv(m0, m0, a, k) {
      assert AppInv(m0, m0, a, 0);
    }
    RunKeepsInv(m0, m0, run);
    n :| AppInv(m0, After(m0, run), app, n);
  }

  lemma Serialisable(m0: Machine, run: seq<Event>, app: string)
    requires Idle(m0) && Possible(m0, run) && app in After(m0, run).tasks
    ensures var ts := After(m0, run).tasks[app];
      && (forall t :: t in ts ==> t.done <= |t.ops|)
      && (forall i, j :: 0 <= i < |ts| && 0 <= j < |ts| && ts[i].status.Running? && ts[j].status.Running? ==> i == j)
      && ((forall t :: t in ts ==> Settled(t)) ==>
            ViewOf(After(m0, run).table, app) == OneByOne(ts, ViewOf(m0.table, app)))
  {
    var n := Reached(m0, run, app);
    AllSettled(After(m0, run).tasks[app], n, ViewOf(m0.table, app), ViewOf(After(m0, run).table, app));
  }

  lemma AllSettled(ts: seq<Task>, n: nat, start: View, now: View)
    requires Lined(ts, n) && Serial(ts, n, start, now)
    ensures forall t :: t in ts ==> t.done <= |t.ops|
    ensures (forall t :: t in ts ==> Settled(t)) ==> now == OneByOne(ts, start)
  {
    if n < |ts| {
      assert ts[n] in ts && !Settled(ts[n]);
    }
  }

  /** A rejection never wedges the chain: while a body waits, one is running or one may start. */
  lemma NeverWedged(m0: Machine, run: seq<Event>, app: string, k: nat)
    requires Idle(m0) && Possible(m0, run) && app in After(m0, run).tasks
    requires k < |After(m0, run).tasks[app]| && After(m0, run).tasks[app][k].status.Waiting?
    ensures var ts := After(m0, run).tasks[app];
      exists i :: 0 <= i <= k && (ts[i].status.Running? || ChainReleases(ts, i))
  {
    var n := Reached(m0, run, app);
    var ts := After(m0, run).tasks[app];
    assert n <= k;
    assert ts[n].status.Running? || ChainReleases(ts, n);
  }

  // ---- What was asked is done ----

  /** The bodies submitted for the app in a run, in order. */
  function Asked(run: seq<Event>, app: string): seq<seq<Op>> {
    if run == [] then []
    else (if run[0].Submitted? && run[0].app == app then [run[0].ops] else []) + Asked(run[1..], app)
  }

  function OpsOf(tasks: seq<Task>): seq<seq<Op>> { seq(|tasks|, i requires 0 <= i < |tasks| => tasks[i].ops) }

  /** A body that was fulfilled got to its end. */
  predicate WholeWhenFulfilled(tasks: seq<Task>) {
    forall i :: 0 <= i < |tasks| && tasks[i].status.Fulfilled? ==> tasks[i].done == |tasks[i].ops|
  }

  lemma StepAsks(m: Machine, e: Event, app: string)
    requires Enabled(m, e) && app in m.tasks && WholeWhenFulfilled(m.tasks[app])
    ensures app in Step(m, e).tasks && WholeWhenFulfilled(Step(m, e).tasks[app])
    ensures OpsOf(Step(m, e).tasks[app]) == OpsOf(m.tasks[app]) + Asked([e], app)
  {
    assert Asked([e][1..], app) == [];
  }

  /** An app's chain holds exactly the bodies submitted for it, in order, and fulfils none that is not at its end. */
  lemma {:induction false} ChainHoldsWhatWasAsked(m: Machine, run: seq<Event>, app: string)
    requires Possible(m, run) && app in m.tasks && WholeWhenFulfilled(m.tasks[app])
    ensures app in After(m, run).tasks && WholeWhenFulfilled(After(m, run).tasks[app])
    ensures OpsOf(After(m, run).tasks[app]) == OpsOf(m.tasks[app]) + Asked(run, app)
    decreases |run|
  {
    if run != [] {
      var e := run[0];
      StepAsks(m, e, app);
      ChainHoldsWhatWasAsked(Step(m, e), run[1..], app);
      assert [e][1..] == [];
      assert Asked(run, app) == Asked([e], app) + Asked(run[1..], app);
    }
  }

  /** What is left to do on a chain: a start, the operations and an end for each body not yet settled. */
  function LeftOf(t: Task): nat
    requires t.done <= |t.ops|
  {
    if Settled(t) then 0 else |t.ops| - t.done + (if t.status.Running? then 1 else 2)
  }

  function Left(tasks: seq<Task>): nat
    requires forall t :: t in tasks ==> t.done <= |t.ops|
  {
    if tasks == [] then 0 else Left(tasks[..|tasks| - 1]) + LeftOf(tasks[|tasks| - 1])
  }

  lemma {:induction false} LeftUpdate(tasks: seq<Task>, i: nat, t: Task)
    requires (forall u :: u in tasks ==> u.done <= |u.ops|) && i < |tasks| && t.done <= |t.ops|
    ensures forall u :: u in tasks[i := t] ==> u.done <= |u.ops|
    ensures Left(tasks[i := t]) == Left(tasks) - LeftOf(tasks[i]) + LeftOf(t)
    decreases |tasks|
  {
    var n := |tasks| - 1;
    if i < n {
      LeftUpdate(tasks[..n], i, t);
      assert tasks[i := t][..n] == tasks[..n][i := t];
    } else {
      assert tasks[i := t][..n] == tasks[..n];
    }
  }

  /** The next event of an app's own chain. */
  function NextOf(app: string, tasks: seq<Task>, n: nat): Event
    requires n < |tasks|
  {
    if tasks[n].status.Waiting? then Started(app, n)
    else if tasks[n].done < |tasks[n].ops| then Stepped(app, n)
    else Finished(app, n)
  }

  lemma NextAdvances(m: Machine, app: string, n: nat)
    requires app in m.tasks && Lined(m.tasks[app], n) && n < |m.tasks[app]|
    ensures var e := NextOf(app, m.tasks[app], n);
      && Enabled(m, e) && app in Step(m, e).tasks && !e.Threw? && !e.Submitted?
      && (exists k: nat :: Lined(Step(m, e).tasks[app], k))
      && Left(Step(m, e).tasks[app]) < Left(m.tasks[app])
  {
    var ts := m.tasks[app];
    var e := NextOf(app, ts, n);
    var t1 := Step(m, e).tasks[app][n];
    LeftUpdate(ts, n, t1);
    assert Step(m, e).tasks[app] == ts[n := t1];
    if e.Finished? { assert Lined(ts[n := t1], n + 1); } else { assert Lined(ts[n := t1], n); }
  }

  /** From every lined-up chain a run of its own settles every body of it; every reached chain is lined up. */
  lemma {:induction false} CanFinish(m: Machine, app: string, n: nat) returns (run: seq<Event>)
    requires app in m.tasks && Lined(m.tasks[app], n)
    ensures Possible(m, run) && app in After(m, run).tasks && forall t :: t in After(m, run).tasks[app] ==> Settled(t)
    ensures forall e :: e in run ==> !e.Submitted? && !e.Threw?
    decreases Left(m.tasks[app])
  {
    if n == |m.tasks[app]| {
      run := [];
    } else {
      var e := NextOf(app, m.tasks[app], n);
      NextAdvances(m, app, n);
      var m1 := Step(m, e);
      var k: nat :| Lined(m1.tasks[app], k);
      var rest := CanFinish(m1, app, k);
      run := [e] + rest;
      assert run[1..] == rest;
    }
  }

  /**
   * Whatever happened, an app's chain takes more, and can still be worked off to its end, and then holds just what was
   * asked.
   */
  lemma EveryBodySettles(m0: Machine, run: seq<Event>, app: string) returns (more: seq<Event>)
    requires Idle(m0) && Possible(m0, run) && app in m0.tasks
    ensures app in After(m0, run).tasks && Possible(After(m0, run), more)
    ensures app in After(After(m0, run), more).tasks
    ensures var ts := After(After(m0, run), more).tasks[app];
      OpsOf(ts) == Asked(run, app) && forall t :: t in ts ==> Settled(t)
    ensures forall ops :: Enabled(After(m0, run), Submitted(app, ops))
  {
    ChainHoldsWhatWasAsked(m0, run, app);
    var n := Reached(m0, run, app);
    more := CanFinish(After(m0, run), app, n);
    ChainHoldsWhatWasAsked(After(m0, run), more, app);
    NothingAsked(more, app);
  }

  lemma {:induction false} NothingAsked(run: seq<Event>, app: string)
    requires forall e :: e in run ==> !e.Submitted?
    ensures Asked(run, app) == []
  {
    if run != [] { NothingAsked(run[1..], app); }
  }
}
