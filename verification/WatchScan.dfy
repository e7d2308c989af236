/**
  The startup scan: what one leaves behind, and what a second one finds to do.

  A scan of a watch loads its rows, ingests every listed file in any order, and
  then treats every synced path the listing lacks as departed. A restart and a
  second scan over the same disk and library change no row, no record and no entry
  exactly if the first scan met no stale exclusion (`RestartFixpointExactly`): a
  tracked, eligible file with new bytes whose old record the library had deleted.
  That file is marked excluded under its old content, so the new bytes wait for a
  second scan. `IngestSettlesExactly` and `ScanSettlesExactly` are the equivalences
  for one path and one scan, and `SecondScanCatchesUp` says a second is enough.
*/
module WatchScan {
  import opened Wrappers
  import opened WatchModel
  import opened WatchInvariant

  predicate Listed(w: World, p: Path) { Accepted(w, p) && p in w.disk && w.disk[p].regular }

  /** A scan of this path again would change neither its row nor any record. */
  predicate Settled(w: World, p: Path)
    requires p in w.disk
  {
    p in w.rows &&
    var row, f := w.rows[p], w.disk[p];
    || (row.lib.Excluded? && (row.tracked.mtime == f.mtime || row.tracked.hash == f.hash))
    || (row.lib.Synced? && Live(w, row.tracked.id)
        && ((row.tracked.mtime == f.mtime && Keyed(w, row.tracked.id)) || row.tracked == TrackedAs(p, f)))
  }

  /** New bytes at a tracked path whose old record was deleted: excluded by its old content. */
  predicate StaleExclusion(w: World, p: Path) {
    p in w.disk && p in w.files && w.files[p].known.Some? &&
    var t := w.files[p].known.value;
    !w.files[p].lib.Excluded? && Tombstoned(w, t.id) && t.mtime != w.disk[p].mtime && t.hash != w.disk[p].hash
  }

  predicate Scannable(w: World, p: Path) {
    p.watch in w.running && Accepted(w, p) && p in w.disk && Eligible(w.disk[p])
  }

  lemma RegisterSettles(w: World, p: Path, f: File)
    requires p in w.disk && f == w.disk[p]
    ensures Register(w, p, f, NoFault).disk == w.disk && Settled(Register(w, p, f, NoFault), p)
  {
  }

  lemma RefreshSettles(w: World, p: Path, f: File)
    requires Inv(w) && p in w.files && w.files[p].known.Some?
    requires p in w.disk && f == w.disk[p]
    requires !w.files[p].lib.Excluded? && !Tombstoned(w, w.files[p].known.value.id)
    ensures var w1 := Refresh(w, p, f, w.files[p], NoFault); w1.disk == w.disk && Settled(w1, p)
  {
    assert PathOk(w, p);
    RegisterSettles(w, p, f);
    RegisterSettles(DropTracking(w, p), p, f);
  }

  lemma IngestSettlesExactly(w: World, p: Path, pick: Option<Path>)
    requires Inv(w) && Scannable(w, p) && ValidPick(w, p, pick)
    ensures var w1 := Ingest(w, p, pick, NoFault); w1.disk == w.disk && (Settled(w1, p) <==> !StaleExclusion(w, p))
  {
    assert PathOk(w, p);
    var f := w.disk[p];
    assert Ingest(w, p, pick, NoFault) == IngestPresent(w, p, f, NoFault);
    if p !in w.files || w.files[p].known.None? || w.files[p].lib.Excluded? {
      RegisterSettles(w, p, f);
    } else if !Tombstoned(w, w.files[p].known.value.id) {
      RefreshSettles(w, p, f);
    }
  }

  /** The stores a scan must leave alone to be idle. The object store may be repaired. */
  ghost predicate Idle(w: World, w1: World) {
    && w1.rows == w.rows && w1.files == w.files && w1.records == w.records
    && w1.disk == w.disk && w1.running == w.running && w1.configs == w.configs
  }

  lemma SettledStays(w: World, p: Path, pick: Option<Path>)
    requires Inv(w) && Scannable(w, p) && ValidPick(w, p, pick)
    requires Settled(w, p) && p in w.files && w.files[p].known.Some?
    ensures Idle(w, Ingest(w, p, pick, NoFault))
  {
    assert PathOk(w, p);
    var t := w.rows[p].tracked;
    if w.rows[p].lib.Synced? && !Keyed(w, t.id) {
      var w1 := Register(DropTracking(w, p), p, w.disk[p], NoFault);
      assert w1.rows == w.rows && w1.files == w.files;
    }
  }

  /** The first ingest of a stale exclusion does not settle it, and the second does. */
  lemma SecondScanCatchesUp(w: World, p: Path, pick: Option<Path>, again: Option<Path>)
    requires Inv(w) && Scannable(w, p) && ValidPick(w, p, pick) && StaleExclusion(w, p)
    requires ValidPick(Ingest(w, p, pick, NoFault), p, again)
    ensures var w1 := Ingest(w, p, pick, NoFault); var w2 := Ingest(w1, p, again, NoFault);
      && p in w1.rows && w1.rows[p].lib.Excluded? && w1.rows[p].tracked.hash != w.disk[p].hash && w1.records == w.records
      && w2.disk == w.disk && Settled(w2, p) && w2.rows[p].tracked == TrackedAs(p, w.disk[p])
      && (IdOf(p, w.disk[p].hash) !in w.records ==> IdOf(p, w.disk[p].hash) in w2.records && w2.rows[p].lib.Synced?)
  {
    assert PathOk(w, p);
    var w1 := SetLibrary(w, p, Excluded);
    assert Ingest(w, p, pick, NoFault) == w1;
    assert Ingest(w1, p, again, NoFault) == Register(w1, p, w.disk[p], NoFault);
    RegisterSettles(w1, p, w.disk[p]);
  }

  // ---- Scans of a whole watch ----

  function ListedIn(w: World, watch: string): set<Path> {
    set p | p in w.disk && p.watch == watch && Listed(w, p)
  }

  function UnlistedIn(w: World, watch: string): set<Path> {
    set p | p in w.files && p.watch == watch && !Listed(w, p) && w.files[p].lib.Synced?
  }

  function NoFaults(p: Path): Fault { NoFault }

  /** One ingest of each path, in any order, each failing where `faults` says. */
  ghost predicate IngestsEach(run: seq<Event>, todo: set<Path>, faults: Path -> Fault)
    decreases |run|
  {
    if run == [] then todo == {}
    else
      && run[0].Ingested? && run[0].fault == faults(run[0].path) && run[0].path in todo
      && IngestsEach(run[1..], todo - {run[0].path}, faults)
  }

  ghost predicate ReversesEach(run: seq<Event>, todo: set<Path>)
    decreases |run|
  {
    if run == [] then todo == {}
    else run[0].Reversed? && run[0].path in todo && ReversesEach(run[1..], todo - {run[0].path})
  }

  /** The three phases of `startWatch` from a state where the watch is not running. */
  ghost predicate IsScan(w: World, watch: string, ingests: seq<Event>, reverses: seq<Event>, faults: Path -> Fault) {
    && watch !in w.running
    && Possible(Load(w, watch), ingests)
    && IngestsEach(ingests, ListedIn(w, watch), faults)
    && Possible(After(Load(w, watch), ingests), reverses)
    && ReversesEach(reverses, UnlistedIn(After(Load(w, watch), ingests), watch))
  }

  ghost function Scanned(w: World, watch: string, ingests: seq<Event>, reverses: seq<Event>, faults: Path -> Fault): World
    requires IsScan(w, watch, ingests, reverses, faults)
  {
    After(After(Load(w, watch), ingests), reverses)
  }

  /** What a scan's steps leave as they find it, away from the paths they write. */
  ghost predicate Apart(w: World, w1: World, touched: set<Path>) {
    && w1.configs == w.configs && w1.running == w.running && w1.disk == w.disk
    && (forall q :: q !in touched ==> SameAt(w, w1, q))
    && (forall id :: id in w.records ==> id in w1.records && w1.records[id] == w.records[id])
    && (forall id :: id in w1.records && id !in w.records ==> !w1.records[id].deleted)
  }

  lemma ApartTwice(w: World, w0: World, w1: World, t0: set<Path>, t1: set<Path>)
    requires Apart(w, w0, t0) && Apart(w0, w1, t1)
    ensures Apart(w, w1, t0 + t1)
  {
  }

  lemma ApartKeeps(w: World, w1: World, touched: set<Path>, p: Path)
    requires Apart(w, w1, touched) && p !in touched
    ensures StaleExclusion(w1, p) ==> StaleExclusion(w, p)
    ensures p in w.disk && Settled(w, p) ==> Settled(w1, p)
  {
  }

  lemma IngestApart(w: World, p: Path, pick: Option<Path>)
    requires Inv(w) && p.watch in w.running && ValidPick(w, p, pick)
    ensures Apart(w, Ingest(w, p, pick, NoFault), {p})
  {
    IngestStep(w, p, pick, NoFault);
  }

  lemma {:induction false} IngestsApart(w: World, run: seq<Event>, todo: set<Path>)
    requires Inv(w) && Possible(w, run) && IngestsEach(run, todo, NoFaults)
    requires forall p :: p in todo ==> p.watch in w.running
    ensures Inv(After(w, run)) && Apart(w, After(w, run), todo)
    decreases |run|
  {
    if run != [] {
      var p := run[0].path;
      var w1 := Step(w, run[0]);
      IngestStep(w, p, run[0].pick, NoFault);
      IngestApart(w, p, run[0].pick);
      IngestsApart(w1, run[1..], todo - {p});
      ApartTwice(w, w1, After(w, run), {p}, todo - {p});
      assert {p} + (todo - {p}) == todo;
    }
  }

  /** After the ingests, every eligible path that was not stale is settled. */
  lemma {:induction false} IngestsSettle(w: World, run: seq<Event>, todo: set<Path>)
    requires Inv(w) && Possible(w, run) && IngestsEach(run, todo, NoFaults)
    requires forall p :: p in todo ==> p.watch in w.running && Accepted(w, p) && p in w.disk
    requires forall p :: p in todo && Eligible(w.disk[p]) ==> !StaleExclusion(w, p)
    ensures Inv(After(w, run)) && Apart(w, After(w, run), todo)
    ensures forall p :: p in todo && Eligible(w.disk[p]) ==> Settled(After(w, run), p)
    decreases |run|
  {
    if run != [] {
      var p, pick := run[0].path, run[0].pick;
      var w1 := Step(w, run[0]);
      IngestStep(w, p, pick, NoFault);
      IngestApart(w, p, pick);
      forall q | q in todo - {p} && Eligible(w1.disk[q]) ensures !StaleExclusion(w1, q) {
        ApartKeeps(w, w1, {p}, q);
      }
      IngestsSettle(w1, run[1..], todo - {p});
      ApartTwice(w, w1, After(w, run), {p}, todo - {p});
      assert {p} + (todo - {p}) == todo;
      if Eligible(w.disk[p]) {
        IngestSettlesExactly(w, p, pick);
        ApartKeeps(w1, After(w, run), todo - {p}, p);
      }
    }
  }

  /** After the reverse comparison no path of `todo` is synced, and nothing else moved. */
  lemma {:induction false} ReversesEvict(w: World, run: seq<Event>, todo: set<Path>)
    requires Inv(w) && Possible(w, run) && ReversesEach(run, todo)
    ensures Inv(After(w, run)) && Apart(w, After(w, run), todo)
    ensures forall p :: p in todo && p in After(w, run).files ==> !After(w, run).files[p].lib.Synced?
    decreases |run|
  {
    if run != [] {
      var p := run[0].path;
      var w1 := Step(w, run[0]);
      DepartStep(w, p, run[0].pick);
      assert Apart(w, w1, {p});
      ReversesEvict(w1, run[1..], todo - {p});
      ApartTwice(w, w1, After(w, run), {p}, todo - {p});
      assert {p} + (todo - {p}) == todo;
      assert SameAt(w1, After(w, run), p);
    }
  }

  ghost predicate WatchSettled(w: World, watch: string) {
    && (forall p: Path :: p.watch == watch && Scannable(w, p) ==> Settled(w, p))
    && (forall p: Path :: p in w.files && p.watch == watch && w.files[p].lib.Synced? ==> Listed(w, p))
  }

  /** The scan finds no stale exclusion among the files it looks at. */
  ghost predicate NoneStale(w: World, watch: string) {
    forall p: Path :: p.watch == watch && Scannable(w, p) ==> !StaleExclusion(w, p)
  }

  lemma ScanSettles(w: World, watch: string, ingests: seq<Event>, reverses: seq<Event>)
    requires Inv(w) && IsScan(w, watch, ingests, reverses, NoFaults) && NoneStale(Load(w, watch), watch)
    ensures WatchSettled(Scanned(w, watch, ingests, reverses, NoFaults), watch)
  {
    var w0 := Load(w, watch);
    var w1 := After(w0, ingests);
    var w2 := After(w1, reverses);
    var todo, gone := ListedIn(w, watch), UnlistedIn(w1, watch);
    LoadStep(w, watch);
    forall p | p in todo && Eligible(w0.disk[p]) ensures !StaleExclusion(w0, p) {
      assert Scannable(w0, p);
    }
    IngestsSettle(w0, ingests, todo);
    ReversesEvict(w1, reverses, gone);
    forall p: Path | p.watch == watch && Scannable(w2, p) ensures Settled(w2, p) {
      assert p in todo && p !in gone;
      ApartKeeps(w1, w2, gone, p);
    }
    forall p: Path | p in w2.files && p.watch == watch && w2.files[p].lib.Synced? ensures Listed(w2, p) {
      if p !in gone {
        assert SameAt(w1, w2, p);
      }
    }
  }

  lemma ScanKeepsInv(w: World, watch: string, ingests: seq<Event>, reverses: seq<Event>)
    requires Inv(w) && IsScan(w, watch, ingests, reverses, NoFaults)
    ensures var w2 := Scanned(w, watch, ingests, reverses, NoFaults);
      && Inv(w2) && watch in w2.running && w2.disk == w.disk && w2.configs == w.configs
      && Inv(After(Load(w, watch), ingests))
  {
    var w0 := Load(w, watch);
    var w1 := After(w0, ingests);
    LoadStep(w, watch);
    IngestsApart(w0, ingests, ListedIn(w, watch));
    ReversesEvict(w1, reverses, UnlistedIn(w1, watch));
  }

  // ---- What a stale exclusion leaves for the second scan ----

  /** The file's new bytes are excluded by the content tracked before them. */
  predicate LeftBehind(w: World, p: Path) {
    && p in w.disk && p in w.rows && w.rows[p].lib.Excluded?
    && w.rows[p].tracked.hash != w.disk[p].hash && w.rows[p].tracked.mtime != w.disk[p].mtime
  }

  lemma {:induction false} StaleIsLeftBehind(w: World, run: seq<Event>, todo: set<Path>, p: Path)
    requires Inv(w) && Possible(w, run) && IngestsEach(run, todo, NoFaults)
    requires forall q :: q in todo ==> q.watch in w.running
    requires p in todo && Scannable(w, p) && StaleExclusion(w, p)
    ensures LeftBehind(After(w, run), p)
    decreases |run|
  {
    var q, pick := run[0].path, run[0].pick;
    var w1 := Step(w, run[0]);
    IngestStep(w, q, pick, NoFault);
    if q == p {
      assert PathOk(w, p);
      assert w1 == SetLibrary(w, p, Excluded);
      IngestsApart(w1, run[1..], todo - {p});
      assert SameAt(w1, After(w, run), p);
    } else {
      IngestApart(w, q, pick);
      assert SameAt(w, w1, p);
      StaleIsLeftBehind(w1, run[1..], todo - {q}, p);
    }
  }

  /** An ingest of such a path tracks the new bytes, and nothing else in the scan touches its row. */
  lemma {:induction false} LeftBehindIsTakenIn(w: World, run: seq<Event>, todo: set<Path>, p: Path)
    requires Inv(w) && Possible(w, run) && IngestsEach(run, todo, NoFaults)
    requires forall q :: q in todo ==> q.watch in w.running
    requires p in todo && Scannable(w, p) && LeftBehind(w, p) && p in w.files && w.files[p].known.Some?
    ensures p in After(w, run).rows && After(w, run).rows[p].tracked.hash == w.disk[p].hash
    decreases |run|
  {
    var q, pick := run[0].path, run[0].pick;
    var w1 := Step(w, run[0]);
    IngestStep(w, q, pick, NoFault);
    if q == p {
      assert PathOk(w, p);
      assert w1 == Register(w, p, w.disk[p], NoFault);
      IngestsApart(w1, run[1..], todo - {p});
      assert SameAt(w1, After(w, run), p);
    } else {
      IngestApart(w, q, pick);
      assert SameAt(w, w1, p);
      LeftBehindIsTakenIn(w1, run[1..], todo - {q}, p);
    }
  }

  lemma ScanLeavesBehind(w: World, watch: string, ingests: seq<Event>, reverses: seq<Event>, p: Path)
    requires Inv(w) && IsScan(w, watch, ingests, reverses, NoFaults)
    requires p.watch == watch && Scannable(Load(w, watch), p) && StaleExclusion(Load(w, watch), p)
    ensures LeftBehind(Scanned(w, watch, ingests, reverses, NoFaults), p)
  {
    var w0 := Load(w, watch);
    var w1 := After(w0, ingests);
    LoadStep(w, watch);
    IngestsApart(w0, ingests, ListedIn(w, watch));
    StaleIsLeftBehind(w0, ingests, ListedIn(w, watch), p);
    ReversesEvict(w1, reverses, UnlistedIn(w1, watch));
    assert SameAt(w1, After(w1, reverses), p);
  }

  lemma ScanTakesIn(w: World, watch: string, ingests: seq<Event>, reverses: seq<Event>, p: Path)
    requires Inv(w) && IsScan(w, watch, ingests, reverses, NoFaults)
    requires p.watch == watch && Scannable(Load(w, watch), p) && LeftBehind(w, p)
    ensures var w2 := Scanned(w, watch, ingests, reverses, NoFaults);
      p in w2.rows && w2.rows[p].tracked.hash == w.disk[p].hash
  {
    var w0 := Load(w, watch);
    var w1 := After(w0, ingests);
    LoadStep(w, watch);
    assert p in Loaded(w.rows, watch);
    IngestsApart(w0, ingests, ListedIn(w, watch));
    LeftBehindIsTakenIn(w0, ingests, ListedIn(w, watch), p);
    ReversesEvict(w1, reverses, UnlistedIn(w1, watch));
    assert SameAt(w1, After(w1, reverses), p);
  }

  /** A scan leaves its watch settled exactly if it met no stale exclusion. */
  lemma ScanSettlesExactly(w: World, watch: string, ingests: seq<Event>, reverses: seq<Event>)
    requires Inv(w) && IsScan(w, watch, ingests, reverses, NoFaults)
    ensures WatchSettled(Scanned(w, watch, ingests, reverses, NoFaults), watch) <==> NoneStale(Load(w, watch), watch)
  {
    var w0, w2 := Load(w, watch), Scanned(w, watch, ingests, reverses, NoFaults);
    if NoneStale(w0, watch) {
      ScanSettles(w, watch, ingests, reverses);
    } else {
      var p: Path :| p.watch == watch && Scannable(w0, p) && StaleExclusion(w0, p);
      ScanKeepsInv(w, watch, ingests, reverses);
      ScanLeavesBehind(w, watch, ingests, reverses, p);
      assert Scannable(w2, p) && !Settled(w2, p);
    }
  }

  /** A settled, error-free watch gives a second pass of ingests nothing to do. */
  lemma {:induction false} SettledIngestsIdle(w: World, run: seq<Event>, todo: set<Path>)
    requires Inv(w) && Possible(w, run) && IngestsEach(run, todo, NoFaults)
    requires forall p :: p in todo ==> p in w.disk && Accepted(w, p) && p.watch in w.running
    requires forall p :: p in todo && Eligible(w.disk[p]) ==> Settled(w, p) && p in w.files && w.files[p].known.Some?
    ensures Idle(w, After(w, run))
    decreases |run|
  {
    if run != [] {
      var p, pick := run[0].path, run[0].pick;
      var w1 := Step(w, run[0]);
      IngestStep(w, p, pick, NoFault);
      if Eligible(w.disk[p]) {
        SettledStays(w, p, pick);
      }
      assert Idle(w, w1);
      SettledIngestsIdle(w1, run[1..], todo - {p});
    }
  }

  /**
   * A restart and a second scan of the same disk and library change no row exactly if the first scan met no stale
   * exclusion, and then they change no record and load back the same entries.
   */
  lemma RestartFixpointExactly(w: World, watch: string, ingests: seq<Event>, reverses: seq<Event>,
                               ingestsAgain: seq<Event>, reversesAgain: seq<Event>)
    requires Inv(w) && IsScan(w, watch, ingests, reverses, NoFaults)
    requires IsScan(Restart(Scanned(w, watch, ingests, reverses, NoFaults)), watch, ingestsAgain, reversesAgain, NoFaults)
    ensures var first := Scanned(w, watch, ingests, reverses, NoFaults);
      var second := Scanned(Restart(first), watch, ingestsAgain, reversesAgain, NoFaults);
      && (second.rows == first.rows <==> NoneStale(Load(w, watch), watch))
      && (second.rows == first.rows ==> second.records == first.records && second.files == Loaded(first.rows, watch))
  {
    var w0, first := Load(w, watch), Scanned(w, watch, ingests, reverses, NoFaults);
    ScanKeepsInv(w, watch, ingests, reverses);
    if NoneStale(w0, watch) {
      ScanSettles(w, watch, ingests, reverses);
      SettledScanIsIdle(first, watch, ingestsAgain, reversesAgain);
    } else {
      var p: Path :| p.watch == watch && Scannable(w0, p) && StaleExclusion(w0, p);
      ScanLeavesBehind(w, watch, ingests, reverses, p);
      RestartStep(first);
      assert Scannable(Load(Restart(first), watch), p);
      ScanTakesIn(Restart(first), watch, ingestsAgain, reversesAgain, p);
    }
  }

  /** The second scan's reverse comparison finds nothing either. */
  lemma NothingUnlisted(w: World, w1: World, watch: string)
    requires Inv(w) && WatchSettled(w, watch) && watch in w.running
    requires w1.files == Loaded(w.rows, watch) && w1.disk == w.disk && w1.configs == w.configs
    ensures UnlistedIn(w1, watch) == {}
  {
    forall p ensures p !in UnlistedIn(w1, watch) {
      assert PathOk(w, p);
      assert p in w.files && p.watch == watch && w.files[p].lib.Synced? ==> Listed(w, p);
    }
  }

  lemma LoadedIsSettled(w: World, watch: string)
    requires Inv(w) && WatchSettled(w, watch) && watch in w.running
    ensures var w0 := Load(Restart(w), watch);
      && Inv(w0) && w0.files == Loaded(w.rows, watch)
      && forall p :: p in ListedIn(w0, watch) && Eligible(w0.disk[p]) ==>
           Settled(w0, p) && p in w0.files && w0.files[p].known.Some?
  {
    var w0 := Load(Restart(w), watch);
    RestartStep(w);
    LoadStep(Restart(w), watch);
    forall p | p in ListedIn(w0, watch) && Eligible(w0.disk[p])
      ensures Settled(w0, p) && p in w0.files && w0.files[p].known.Some?
    {
      assert Scannable(w, p) && Settled(w, p);
    }
  }

  lemma SettledScanIsIdle(w: World, watch: string, ingests: seq<Event>, reverses: seq<Event>)
    requires Inv(w) && WatchSettled(w, watch) && watch in w.running
    requires IsScan(Restart(w), watch, ingests, reverses, NoFaults)
    ensures var w1 := Scanned(Restart(w), watch, ingests, reverses, NoFaults);
      w1.rows == w.rows && w1.records == w.records && w1.files == Loaded(w.rows, watch)
  {
    var w0 := Load(Restart(w), watch);
    LoadedIsSettled(w, watch);
    assert ListedIn(Restart(w), watch) == ListedIn(w0, watch);
    SettledIngestsIdle(w0, ingests, ListedIn(w0, watch));
    NothingUnlisted(w, After(w0, ingests), watch);
    assert reverses == [];
  }

  // ---- What a covered content means after a scan ----

  /** A file whose mtime did not move has the bytes it had. */
  ghost predicate HonestClock(w: World) {
    forall p :: p in w.rows && p in w.disk && w.rows[p].tracked.mtime == w.disk[p].mtime ==>
      w.rows[p].tracked.hash == w.disk[p].hash
  }

  /** After a scan a synced path supplies its content from the disk, unless its file became empty or too large. */
  lemma SyncedIsOnDisk(w: World, watch: string, p: Path)
    requires Inv(w) && WatchSettled(w, watch) && watch in w.running && HonestClock(w)
    requires p.watch == watch && p in w.rows && w.rows[p].lib.Synced? && p in w.files && w.files[p].known.Some?
    ensures p in w.disk && w.disk[p].regular && (Eligible(w.disk[p]) ==> w.disk[p].hash == w.rows[p].tracked.hash)
  {
    assert PathOk(w, p);
    assert Listed(w, p);
    if Eligible(w.disk[p]) {
      assert Scannable(w, p) && Settled(w, p);
    }
  }
}
