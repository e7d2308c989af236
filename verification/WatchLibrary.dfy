/**
  The watcher and the library's deletions: nothing comes back by itself, and the
  paths marked excluded are those whose records are deleted.
*/
module WatchLibrary {
  import opened Wrappers
  import opened WatchModel
  import opened WatchInvariant

  // ---- No resurrection ----

  /** The only two ways a tombstone goes: a restore made elsewhere, and `addBack`'s own restore. */
  predicate Lifts(w: World, e: Event, id: RecordId) {
    || e == RecordRestored(id)
    || (e.AddedBack? && AddBackGoesOn(w, e.path, e.granted) && w.files[e.path].known.value.id == id)
  }

  /** The only two ways one comes to be, and neither is the watcher's. */
  predicate Buries(e: Event, id: RecordId) {
    e == RecordDeleted(id) || (e.RecordArrived? && e.id == id && e.record.deleted)
  }

  predicate ByWatcher(e: Event) {
    e.Ingested? || e.Reversed? || e.Rechecked? || e.AddedBack? || e.WatchLoaded? || e.Restarted? || e.WatchStopped?
  }

  /** A record the watcher writes is the one its listed file is, and the library held none under that id. */
  ghost predicate Writes(w: World, w1: World, p: Path) {
    w1.records == w.records || (p in w.disk && OnlyAdds(w, w1, IdOf(p, w.disk[p].hash)))
  }

  lemma RecheckWrites(w: World, p: Path, pick: Option<Path>, fault: Fault)
    requires Inv(w) && ValidPick(w, p, pick)
    ensures Writes(w, RecheckPath(w, p, pick, fault), p)
  {
    assert PathOk(w, p);
    if p in w.files && w.files[p].lib.Excluded? {
      UnmarkStep(w, p);
      IngestStep(Unmark(w, p), p, pick, fault);
    }
  }

  lemma AddBackWrites(w: World, p: Path, granted: bool, pick: Option<Path>, fault: Fault)
    requires Inv(w) && ValidPick(w, p, pick) && AddBackGoesOn(w, p, granted)
    ensures Writes(Restore(w, w.files[p].known.value.id), AddBack(w, p, granted, pick, fault), p)
  {
    assert PathOk(w, p);
    var w0 := Restore(w, w.files[p].known.value.id);
    Untouched(w, w0);
    UnmarkStep(w0, p);
    IngestStep(Unmark(w0, p), p, pick, fault);
  }

  lemma WritesKeepTombstones(w: World, w1: World, p: Path, id: RecordId)
    requires Writes(w, w1, p)
    ensures Tombstoned(w1, id) <==> Tombstoned(w, id)
  {
  }

  lemma {:induction false} TombstonesMoveExactly(w: World, e: Event, id: RecordId)
    requires Inv(w) && Enabled(w, e)
    ensures Tombstoned(w, id) ==> (Tombstoned(Step(w, e), id) <==> !Lifts(w, e, id))
    ensures !Tombstoned(w, id) ==> (Tombstoned(Step(w, e), id) <==> Buries(e, id))
  {
    match e
    case Ingested(p, pick, fault) =>
      IngestStep(w, p, pick, fault);
      WritesKeepTombstones(w, Step(w, e), p, id);
    case Reversed(p, pick) =>
      DepartStep(w, p, pick);
      WritesKeepTombstones(w, Step(w, e), p, id);
    case Rechecked(p, pick, fault) =>
      RecheckWrites(w, p, pick, fault);
      WritesKeepTombstones(w, Step(w, e), p, id);
    case AddedBack(p, granted, pick, fault) =>
      if AddBackGoesOn(w, p, granted) {
        AddBackWrites(w, p, granted, pick, fault);
        WritesKeepTombstones(Restore(w, w.files[p].known.value.id), Step(w, e), p, id);
      }
    case _ =>
  }

  ghost predicate NeverLifted(w: World, run: seq<Event>, id: RecordId)
    requires Possible(w, run)
    decreases |run|
  {
    run == [] || (!Lifts(w, run[0], id) && NeverLifted(Step(w, run[0]), run[1..], id))
  }

  /** Over a whole run a deleted record stays deleted unless someone restores it. */
  lemma {:induction false} NoResurrection(w: World, run: seq<Event>, id: RecordId)
    requires Inv(w) && Possible(w, run) && Tombstoned(w, id) && NeverLifted(w, run, id)
    ensures Tombstoned(After(w, run), id)
    decreases |run|
  {
    if run != [] {
      TombstonesMoveExactly(w, run[0], id);
      StepKeepsInv(w, run[0]);
      NoResurrection(Step(w, run[0]), run[1..], id);
    }
  }

  /** Apart from the restore of an add-back, the watcher changes no record it finds and adds at most one. */
  lemma {:induction false} WatcherOnlyAdds(w: World, e: Event, id: RecordId)
    requires Inv(w) && Enabled(w, e) && ByWatcher(e)
    ensures id in w.records && !Lifts(w, e, id) ==> id in Step(w, e).records && Step(w, e).records[id] == w.records[id]
    ensures id !in w.records && id in Step(w, e).records ==>
      && (e.Ingested? || e.Rechecked? || e.AddedBack?) && e.path in w.disk && id == IdOf(e.path, w.disk[e.path].hash)
      && Step(w, e).records[id] == Record(false, Some(KeyOf(w, id)))
  {
    match e
    case Ingested(p, pick, fault) => IngestStep(w, p, pick, fault);
    case Reversed(p, pick) => DepartStep(w, p, pick);
    case Rechecked(p, pick, fault) => RecheckWrites(w, p, pick, fault);
    case AddedBack(p, granted, pick, fault) =>
      if AddBackGoesOn(w, p, granted) { AddBackWrites(w, p, granted, pick, fault); }
    case _ =>
  }

  // ---- Agreement with the library ----

  /** A path that is neither evicted nor possibly lost is excluded exactly when its record is deleted. */
  predicate Agrees(w: World, p: Path) {
    p in w.rows && (w.rows[p].lib.Synced? || w.rows[p].lib.Excluded?) ==>
      (w.rows[p].lib.Excluded? <==> Tombstoned(w, w.rows[p].tracked.id))
  }

  function PathsOf(w: World, id: RecordId): set<Path> {
    set p | p in w.rows && w.rows[p].tracked.id == id
  }

  /** The paths whose record's deletion state may have moved since their last recheck. */
  function Unsettled(w: World, e: Event, stale: set<Path>): set<Path> {
    match e
    case RecordDeleted(id) => stale + PathsOf(w, id)
    case RecordRestored(id) => stale + PathsOf(w, id)
    case RecordArrived(id, _) => stale + PathsOf(w, id)
    case AddedBack(p, granted, _, _) =>
      if AddBackGoesOn(w, p, granted) then (stale + PathsOf(w, w.files[p].known.value.id)) - {p} else stale
    case Rechecked(p, _, _) => if p in w.files && w.files[p].known.Some? then stale - {p} else stale
    case _ => stale
  }

  ghost function UnsettledAfter(w: World, run: seq<Event>, stale: set<Path>): set<Path>
    requires Possible(w, run)
    decreases |run|
  {
    if run == [] then stale else UnsettledAfter(Step(w, run[0]), run[1..], Unsettled(w, run[0], stale))
  }

  ghost predicate Agreement(w: World, stale: set<Path>) {
    forall p :: p !in stale ==> Agrees(w, p)
  }

  lemma AgreesAway(w: World, w1: World, p: Path, q: Path)
    requires OnlyAt(w, w1, p) && Writes(w, w1, p) && q != p && Agrees(w, q)
    ensures Agrees(w1, q)
  {
    assert SameAt(w, w1, q);
  }

  lemma RegisterAgrees(w: World, p: Path, f: File, fault: Fault)
    requires Agrees(w, p)
    ensures Agrees(Register(w, p, f, fault), p)
  {
    var t := TrackedAs(p, f);
    if Tombstoned(w, t.id) {
    } else if t.id in w.records {
      assert Ensure(w, t.id, p).records == w.records;
    } else if !fault.AtPut? {
      assert PutRecord(w, p, t.id).records == w.records[t.id := Record(false, Some(KeyOf(w, t.id)))];
    }
  }

  lemma RestoreAgrees(w: World, p: Path, f: File, t: Tracked, fault: Fault)
    requires Agrees(w, p) && !Tombstoned(w, t.id)
    ensures Agrees(RestoreEntry(w, p, f, t, fault), p)
  {
    hide Register;
    RegisterAgrees(DropTracking(w, p), p, f, fault);
  }

  lemma PresentAgrees(w: World, p: Path, f: File, fault: Fault)
    requires Inv(w) && Agrees(w, p)
    ensures Agrees(IngestPresent(w, p, f, fault), p)
  {
    assert PathOk(w, p);
    hide Register, RestoreEntry;
    RegisterAgrees(w, p, f, fault);
    if p in w.files && w.files[p].known.Some? && !Tombstoned(w, w.files[p].known.value.id) {
      RestoreAgrees(w, p, f, w.files[p].known.value, fault);
    }
  }

  lemma IngestAgrees(w: World, p: Path, pick: Option<Path>, fault: Fault)
    requires Inv(w) && p.watch in w.running && (pick.Some? ==> Survives(w, p, pick.value)) && Agrees(w, p)
    ensures Agrees(Ingest(w, p, pick, fault), p)
  {
    assert PathOk(w, p);
    if Accepted(w, p) && !fault.AtStat? {
      if p !in w.disk {
        DepartStep(w, p, pick);
      } else if Eligible(w.disk[p]) {
        PresentAgrees(w, p, w.disk[p], fault);
      }
    }
  }

  /** A recheck settles its path, whatever it found. */
  lemma RecheckAgrees(w: World, p: Path, pick: Option<Path>, fault: Fault)
    requires Inv(w) && ValidPick(w, p, pick)
    ensures var w1 := RecheckPath(w, p, pick, fault);
      && OnlyAt(w, w1, p) && Writes(w, w1, p)
      && (Agrees(w, p) || (p in w.files && w.files[p].known.Some?) ==> Agrees(w1, p))
  {
    assert PathOk(w, p);
    RecheckWrites(w, p, pick, fault);
    if p in w.files && w.files[p].known.Some? {
      if w.files[p].lib.Synced? && Tombstoned(w, w.files[p].known.value.id) {
        SetLibraryStep(w, w, p, Excluded);
      } else if w.files[p].lib.Excluded? && !Tombstoned(w, w.files[p].known.value.id) {
        UnmarkStep(w, p);
        IngestAgrees(Unmark(w, p), p, pick, fault);
        IngestStep(Unmark(w, p), p, pick, fault);
        OnlyAtTwice(w, Unmark(w, p), Ingest(Unmark(w, p), p, pick, fault), p);
      }
    }
  }

  lemma AddBackAgrees(w: World, p: Path, granted: bool, pick: Option<Path>, fault: Fault)
    requires Inv(w) && ValidPick(w, p, pick) && AddBackGoesOn(w, p, granted)
    ensures var w0 := Restore(w, w.files[p].known.value.id); var w1 := AddBack(w, p, granted, pick, fault);
      OnlyAt(w0, w1, p) && Writes(w0, w1, p) && Agrees(w1, p)
  {
    assert PathOk(w, p);
    var w0 := Restore(w, w.files[p].known.value.id);
    Untouched(w, w0);
    UnmarkStep(w0, p);
    IngestAgrees(Unmark(w0, p), p, pick, fault);
    IngestStep(Unmark(w0, p), p, pick, fault);
    OnlyAtTwice(w0, Unmark(w0, p), AddBack(w, p, granted, pick, fault), p);
  }

  lemma SurroundingsKeepAgreement(w: World, e: Event, stale: set<Path>, q: Path)
    requires !e.Ingested? && !e.Reversed? && !e.Rechecked? && !e.AddedBack?
    requires Enabled(w, e) && (q !in stale ==> Agrees(w, q)) && q !in Unsettled(w, e, stale)
    ensures Agrees(Step(w, e), q)
  {
  }

  lemma {:induction false} StepKeepsAgreement(w: World, e: Event, stale: set<Path>, q: Path)
    requires Inv(w) && Enabled(w, e) && (q !in stale ==> Agrees(w, q)) && q !in Unsettled(w, e, stale)
    ensures Agrees(Step(w, e), q)
  {
    match e
    case Ingested(p, pick, fault) =>
      IngestStep(w, p, pick, fault);
      if q == p { IngestAgrees(w, p, pick, fault); } else { AgreesAway(w, Step(w, e), p, q); }
    case Reversed(p, pick) =>
      DepartStep(w, p, pick);
      assert PathOk(w, p);
      if q != p { AgreesAway(w, Step(w, e), p, q); }
    case Rechecked(p, pick, fault) =>
      RecheckAgrees(w, p, pick, fault);
      if q != p { AgreesAway(w, Step(w, e), p, q); }
    case AddedBack(p, granted, pick, fault) => AddedBackAgrees(w, e, stale, q);
    case _ => SurroundingsKeepAgreement(w, e, stale, q);
  }

  lemma AddedBackAgrees(w: World, e: Event, stale: set<Path>, q: Path)
    requires Inv(w) && e.AddedBack? && Enabled(w, e) && (q !in stale ==> Agrees(w, q)) && q !in Unsettled(w, e, stale)
    ensures Agrees(Step(w, e), q)
  {
    var p := e.path;
    if AddBackGoesOn(w, p, e.granted) {
      AddBackAgrees(w, p, e.granted, e.pick, e.fault);
      if q != p { AgreesAway(Restore(w, w.files[p].known.value.id), Step(w, e), p, q); }
    }
  }

  /** Once every path whose record moved has been rechecked, the marks and the tombstones agree. */
  lemma {:induction false} LibraryAgreement(w: World, run: seq<Event>, stale: set<Path>)
    requires Inv(w) && Possible(w, run) && Agreement(w, stale)
    ensures Agreement(After(w, run), UnsettledAfter(w, run, stale))
    decreases |run|
  {
    if run != [] {
      forall q | q !in Unsettled(w, run[0], stale) ensures Agrees(Step(w, run[0]), q) {
        StepKeepsAgreement(w, run[0], stale, q);
      }
      StepKeepsInv(w, run[0]);
      LibraryAgreement(Step(w, run[0]), run[1..], Unsettled(w, run[0], stale));
    }
  }

  /** A recheck of every path whose record moved leaves none of them open, whatever order the table gives them in. */
  lemma {:induction false} RechecksSettle(w: World, run: seq<Event>, stale: set<Path>, p: Path)
    requires Inv(w) && Possible(w, run) && forall e :: e in run ==> e.Rechecked?
    requires p !in stale || (p in w.files && w.files[p].known.Some? && exists e :: e in run && e.path == p)
    ensures p !in UnsettledAfter(w, run, stale)
    decreases |run|
  {
    if run != [] {
      var e := run[0];
      StepKeepsInv(w, e);
      RecheckAgrees(w, e.path, e.pick, e.fault);
      if p != e.path {
        assert SameAt(w, Step(w, e), p);
        if p in stale {
          var e1 :| e1 in run && e1.path == p;
          assert e1 in run[1..];
        }
      }
      RechecksSettle(Step(w, e), run[1..], Unsettled(w, e, stale), p);
    }
  }

  predicate LoadedAt(w: World, p: Path) { p in w.files && w.files[p].known.Some? }

  /** A recheck of a path without a tracked entry in memory, and any recheck of another path, leaves its agreement alone. */
  lemma RecheckLeaves(w: World, e: Event, p: Path)
    requires Inv(w) && Enabled(w, e) && e.Rechecked? && (e.path != p || !LoadedAt(w, p))
    ensures Agrees(Step(w, e), p) <==> Agrees(w, p)
    ensures LoadedAt(Step(w, e), p) <==> LoadedAt(w, p)
  {
    var w1 := Step(w, e);
    assert PathOk(w, p);
    RecheckAgrees(w, e.path, e.pick, e.fault);
    if e.path != p {
      assert SameAt(w, w1, p);
    } else {
      assert w1 == w;
    }
  }

  /**
   * After a run of rechecks that reaches every path in memory that disagreed, a path agrees exactly if it agreed before
   * or was in memory under a record. What is not loaded, or blank after a failed ingest, a recheck does not put right.
   */
  lemma {:induction false} RecheckedAgreeExactly(w: World, run: seq<Event>, p: Path)
    requires Inv(w) && Possible(w, run) && forall e :: e in run ==> e.Rechecked?
    requires !Agrees(w, p) && LoadedAt(w, p) ==> exists e :: e in run && e.path == p
    ensures Agrees(After(w, run), p) <==> Agrees(w, p) || LoadedAt(w, p)
    decreases |run|
  {
    if run != [] {
      var e := run[0];
      var w1 := Step(w, e);
      StepKeepsInv(w, e);
      if e.path == p && LoadedAt(w, p) {
        RecheckAgrees(w, p, e.pick, e.fault);
      } else {
        RecheckLeaves(w, e, p);
        if !Agrees(w, p) && LoadedAt(w, p) {
          var e1 :| e1 in run && e1.path == p;
          assert e1 in run[1..];
        }
      }
      RecheckedAgreeExactly(w1, run[1..], p);
    }
  }

  /** A deletion elsewhere and a restore elsewhere return an untouched file to where it was, its object included. */
  lemma DeleteThenRestore(w: World, p: Path)
    requires Inv(w) && p.watch in w.running && Accepted(w, p) && p in w.disk && Eligible(w.disk[p])
    requires p in w.files && w.files[p].known.Some? && w.files[p].lib.Synced?
    requires w.files[p].known.value.mtime == w.disk[p].mtime && Keyed(w, w.files[p].known.value.id)
    ensures var id := w.files[p].known.value.id;
      var deleted := Step(w, RecordDeleted(id));
      var marked := RecheckPath(deleted, p, None, NoFault);
      var back := RecheckPath(Step(marked, RecordRestored(id)), p, None, NoFault);
      && p in marked.rows && marked.rows[p].lib.Excluded? && Tombstoned(marked, id)
      && back.rows == w.rows && back.files == w.files && back.records == w.records
      && Has(back, w.records[id].key.value)
  {
    assert PathOk(w, p);
    var id := w.files[p].known.value.id;
    var marked := RecheckPath(Step(w, RecordDeleted(id)), p, None, NoFault);
    var restored := Step(marked, RecordRestored(id));
    assert restored.records == w.records;
    assert Unmark(restored, p).rows == w.rows && Unmark(restored, p).files == w.files;
  }
}
