/**
  No silent loss: when a tracked content stops being supplied by any path, it was
  proved in the cloud or a path is listed as possibly lost.

  `ExactLoss` says of every single step precisely when it loses a content, as a
  guard over the state before the step. `NoSilentLoss` is the promise over whole
  runs: a run that contains none of the four things the code does not cover (a
  failed ingest of that content, new bytes written over it in place, the deletion
  of a record holding it, the end of a watch holding it) keeps it covered, however
  the paths that hold it leave one after the other.
*/
module WatchLoss {
  import opened Wrappers
  import opened WatchModel
  import opened WatchInvariant

  /** `p` is tracked with this content, and as supplying it or as possibly lost. */
  predicate Holds(w: World, p: Path, h: Hash) {
    p in w.rows && w.rows[p].tracked.hash == h && (w.rows[p].lib.Synced? || w.rows[p].lib.PossiblyLost?)
  }

  ghost predicate Covered(w: World, h: Hash) {
    h in w.proved || exists p :: Holds(w, p, h)
  }

  ghost predicate HoldsAlone(w: World, p: Path, h: Hash) {
    h !in w.proved && Holds(w, p, h) && forall q :: q != p ==> !Holds(w, q, h)
  }

  // ---- Exactly when one step loses a content ----

  /** The path's entry is blank, or the library has no live record with a key to prove. */
  predicate GoesUnproved(w: World, p: Path) {
    p in w.files && (w.files[p].known.None? || !Keyed(w, w.files[p].known.value.id))
  }

  /** Whether an ingest that reaches the tracking table writes it. */
  predicate RowWritten(w: World, id: RecordId, fault: Fault) {
    !fault.AtTrack? && (id in w.records || !fault.AtPut?)
  }

  /** What an ingest of an eligible file does to the content its path held. */
  predicate DropsContent(w: World, p: Path, f: File, fault: Fault, h: Hash)
    requires p in w.files
  {
    var info := w.files[p];
    if info.known.None? then
      RowWritten(w, IdOf(p, f.hash), fault) && (f.hash != h || Tombstoned(w, IdOf(p, h)))
    else
      var t := info.known.value;
      || Tombstoned(w, t.id)
      || (f.hash != h && RowWritten(w, IdOf(p, f.hash), fault)
          && !(info.lib.Synced? && t.mtime == f.mtime && Keyed(w, t.id)))
      || (f.hash == h && !Keyed(w, t.id) && !RowWritten(w, t.id, fault))
  }

  ghost predicate Loses(w: World, e: Event, h: Hash) {
    match e
    case Ingested(p, _, fault) =>
      HoldsAlone(w, p, h) && Accepted(w, p) && !fault.AtStat?
      && if p !in w.disk then GoesUnproved(w, p)
         else Eligible(w.disk[p]) && p in w.files && DropsContent(w, p, w.disk[p], fault, h)
    case Reversed(p, _) => HoldsAlone(w, p, h) && GoesUnproved(w, p)
    case Rechecked(p, _, _) =>
      HoldsAlone(w, p, h) && p in w.files && w.files[p].lib.Synced? && w.files[p].known.Some?
      && Tombstoned(w, w.files[p].known.value.id)
    case WatchStopped(watch) =>
      watch in w.running && Covered(w, h) && h !in w.proved && forall p :: Holds(w, p, h) ==> p.watch == watch
    case _ => false
  }

  /** A step that writes one path loses the content only there. */
  lemma CoverAt(w: World, w1: World, p: Path, h: Hash)
    requires OnlyAt(w, w1, p)
    ensures Covered(w1, h) <==> h in w1.proved || Holds(w1, p, h) || exists q :: q != p && Holds(w, q, h)
  {
    forall q | q != p ensures Holds(w1, q, h) <==> Holds(w, q, h) {
      assert SameAt(w, w1, q);
    }
    if q :| q != p && Holds(w, q, h) {
      assert Holds(w1, q, h);
    }
  }

  /** If a step keeps the proofs, it loses exactly the content `p` alone held and holds no longer. */
  lemma LostAt(w: World, w1: World, p: Path, h: Hash)
    requires OnlyAt(w, w1, p)
    ensures Covered(w, h) && !Covered(w1, h) <==> HoldsAlone(w, p, h) && !Holds(w1, p, h) && h !in w1.proved
  {
    CoverAt(w, w1, p, h);
  }

  lemma DepartLoses(w: World, p: Path, pick: Option<Path>, h: Hash)
    requires Inv(w) && ValidPick(w, p, pick) && p in w.files
    ensures Covered(w, h) && !Covered(Depart(w, p, pick), h) <==> HoldsAlone(w, p, h) && GoesUnproved(w, p)
  {
    var w1 := Depart(w, p, pick);
    DepartStep(w, p, pick);
    LostAt(w, w1, p, h);
    assert PathOk(w, p);
    if HoldsAlone(w, p, h) && pick.Some? {
      assert Holds(w, pick.value, h);
      assert false;
    }
  }

  lemma RegisterHolds(w: World, p: Path, f: File, fault: Fault, h: Hash)
    ensures var w1 := Register(w, p, f, fault);
      if RowWritten(w, IdOf(p, f.hash), fault)
      then Holds(w1, p, h) <==> f.hash == h && !Tombstoned(w, IdOf(p, f.hash))
      else Holds(w1, p, h) <==> Holds(w, p, h)
  {
  }

  lemma RefreshHolds(w: World, p: Path, f: File, fault: Fault, h: Hash)
    requires PathOk(w, p) && p in w.files && Holds(w, p, h)
    requires w.files[p].known.Some? && !Tombstoned(w, w.files[p].known.value.id)
    ensures !Holds(Refresh(w, p, f, w.files[p], fault), p, h) <==> DropsContent(w, p, f, fault, h)
  {
    RegisterHolds(w, p, f, fault, h);
    RegisterHolds(DropTracking(w, p), p, f, fault, h);
  }

  lemma PresentLoses(w: World, p: Path, f: File, fault: Fault, h: Hash)
    requires Inv(w) && p in w.files && Holds(w, p, h)
    ensures !Holds(IngestPresent(w, p, f, fault), p, h) <==> DropsContent(w, p, f, fault, h)
  {
    assert PathOk(w, p);
    hide Register, Refresh, Inv;
    RegisterHolds(w, p, f, fault, h);
    if w.files[p].known.Some? && !Tombstoned(w, w.files[p].known.value.id) {
      RefreshHolds(w, p, f, fault, h);
    }
  }

  lemma IngestLoses(w: World, p: Path, pick: Option<Path>, fault: Fault, h: Hash)
    requires Inv(w) && p.watch in w.running && ValidPick(w, p, pick)
    ensures Covered(w, h) && !Covered(Ingest(w, p, pick, fault), h) <==> Loses(w, Ingested(p, pick, fault), h)
  {
    assert PathOk(w, p);
    var w1 := Ingest(w, p, pick, fault);
    IngestStep(w, p, pick, fault);
    LostAt(w, w1, p, h);
    if Accepted(w, p) && !fault.AtStat? {
      if p !in w.disk {
        if p in w.files {
          DepartLoses(w, p, pick, h);
        }
      } else if Eligible(w.disk[p]) {
        IngestPresentStep(w, p, w.disk[p], fault);
        if Holds(w, p, h) {
          PresentLoses(w, p, w.disk[p], fault, h);
        }
      }
    }
  }

  lemma RecheckLoses(w: World, p: Path, pick: Option<Path>, fault: Fault, h: Hash)
    requires Inv(w) && ValidPick(w, p, pick)
    ensures Covered(w, h) && !Covered(RecheckPath(w, p, pick, fault), h) <==> Loses(w, Rechecked(p, pick, fault), h)
  {
    assert PathOk(w, p);
    if p in w.files {
      var info := w.files[p];
      if info.known.Some? && Tombstoned(w, info.known.value.id) && info.lib.Synced? {
        SetLibraryStep(w, w, p, Excluded);
        LostAt(w, SetLibrary(w, p, Excluded), p, h);
      } else if info.lib.Excluded? {
        UnmarkStep(w, p);
        IngestStep(Unmark(w, p), p, pick, fault);
        OnlyAtTwice(w, Unmark(w, p), Ingest(Unmark(w, p), p, pick, fault), p);
        if !Tombstoned(w, info.known.value.id) {
          LostAt(w, Ingest(Unmark(w, p), p, pick, fault), p, h);
        }
      }
    }
  }

  lemma AddBackLosesNothing(w: World, p: Path, granted: bool, pick: Option<Path>, fault: Fault, h: Hash)
    requires Inv(w) && ValidPick(w, p, pick) && Covered(w, h)
    ensures Covered(AddBack(w, p, granted, pick, fault), h)
  {
    if AddBackGoesOn(w, p, granted) {
      assert PathOk(w, p);
      var w0 := Restore(w, w.files[p].known.value.id);
      Untouched(w, w0);
      UnmarkStep(w0, p);
      IngestStep(Unmark(w0, p), p, pick, fault);
      OnlyAtTwice(w0, Unmark(w0, p), Ingest(Unmark(w0, p), p, pick, fault), p);
      LostAt(w0, Ingest(Unmark(w0, p), p, pick, fault), p, h);
      forall q ensures Holds(w0, q, h) <==> Holds(w, q, h) {}
    }
  }

  /** The same rows and proofs cover the same contents. */
  lemma CoverDependsOn(w: World, w1: World, h: Hash)
    requires w1.rows == w.rows && w1.proved == w.proved
    ensures Covered(w1, h) <==> Covered(w, h)
  {
    forall q ensures Holds(w1, q, h) <==> Holds(w, q, h) {}
  }

  lemma StopLoses(w: World, watch: string, h: Hash)
    ensures Covered(w, h) && !Covered(StopWatch(w, watch), h) <==> Loses(w, WatchStopped(watch), h)
  {
    var w1 := StopWatch(w, watch);
    if watch in w.running {
      forall q ensures Holds(w1, q, h) <==> Holds(w, q, h) && q.watch != watch {}
    }
  }

  /** A step loses a content exactly when its guard says so, and the guard reads only the state before it. */
  lemma {:induction false} ExactLoss(w: World, e: Event, h: Hash)
    requires Inv(w) && Enabled(w, e)
    ensures Covered(w, h) && !Covered(Step(w, e), h) <==> Loses(w, e, h)
  {
    match e
    case Ingested(p, pick, fault) => IngestLoses(w, p, pick, fault, h);
    case Reversed(p, pick) => DepartLoses(w, p, pick, h);
    case Rechecked(p, pick, fault) => RecheckLoses(w, p, pick, fault, h);
    case AddedBack(p, granted, pick, fault) => if Covered(w, h) { AddBackLosesNothing(w, p, granted, pick, fault, h); }
    case WatchStopped(watch) => StopLoses(w, watch, h);
    case _ => CoverDependsOn(w, Step(w, e), h);
  }

  // ---- No silent loss over runs ----

  /** Every record of this content is live with a key, and no path tracked with it is blank in memory. */
  predicate SafeAt(w: World, p: Path, h: Hash) {
    p in w.rows && w.rows[p].tracked.hash == h ==>
      w.rows[p].tracked.id in w.records && (p in w.files ==> w.files[p].known.Some?)
  }

  ghost predicate Safe(w: World, h: Hash) {
    && (forall id :: id in w.records && id.hash == h ==> Keyed(w, id))
    && (forall p :: SafeAt(w, p, h))
  }

  /** The ingest of a path tracked with this content does not fail, and finds no other bytes there. */
  predicate Undisturbed(w: World, p: Path, fault: Fault, h: Hash) {
    p in w.rows && w.rows[p].tracked.hash == h ==>
      fault.NoFault? && (p in w.disk && Eligible(w.disk[p]) ==> w.disk[p].hash == h)
  }

  ghost predicate Harmless(w: World, e: Event, h: Hash) {
    match e
    case Ingested(p, _, fault) => Undisturbed(w, p, fault, h)
    case Rechecked(p, _, fault) => Undisturbed(w, p, fault, h)
    case AddedBack(p, _, _, fault) => Undisturbed(w, p, fault, h)
    case RecordDeleted(id) => id.hash != h
    case RecordArrived(id, record) => id.hash == h ==> !record.deleted && record.key.Some?
    case WatchStopped(watch) => forall p: Path :: p in w.rows && p.watch == watch ==> w.rows[p].tracked.hash != h
    case _ => true
  }

  ghost predicate HarmlessRun(w: World, run: seq<Event>, h: Hash)
    requires Possible(w, run)
    decreases |run|
  {
    run == [] || (Harmless(w, run[0], h) && HarmlessRun(Step(w, run[0]), run[1..], h))
  }

  lemma SafeFrame(w: World, w1: World, p: Path, h: Hash)
    requires Safe(w, h) && OnlyAt(w, w1, p) && SafeAt(w1, p, h)
    requires exists id :: OnlyAdds(w, w1, id)
    ensures Safe(w1, h)
  {
    forall q ensures SafeAt(w1, q, h) {
      assert SafeAt(w, q, h);
      assert q != p ==> SameAt(w, w1, q);
    }
  }

  lemma RegisterSafe(w: World, p: Path, f: File, fault: Fault, h: Hash)
    requires p in w.rows && w.rows[p].tracked.hash == h ==> fault.NoFault?
    ensures SafeAt(Register(w, p, f, fault), p, h)
  {
  }

  lemma RefreshSafe(w: World, p: Path, f: File, fault: Fault, h: Hash)
    requires PathOk(w, p) && SafeAt(w, p, h) && p in w.files && w.files[p].known.Some?
    requires w.rows[p].tracked.hash == h ==> fault.NoFault?
    ensures SafeAt(Refresh(w, p, f, w.files[p], fault), p, h)
  {
    RegisterSafe(w, p, f, fault, h);
    RegisterSafe(DropTracking(w, p), p, f, fault, h);
  }

  lemma PresentSafe(w: World, p: Path, f: File, fault: Fault, h: Hash)
    requires Inv(w) && Safe(w, h)
    requires p in w.rows && w.rows[p].tracked.hash == h ==> fault.NoFault?
    ensures SafeAt(IngestPresent(w, p, f, fault), p, h)
  {
    assert PathOk(w, p) && SafeAt(w, p, h);
    RegisterSafe(w, p, f, fault, h);
    if p in w.files && w.files[p].known.Some? {
      RefreshSafe(w, p, f, fault, h);
    }
  }

  lemma DepartSafe(w: World, p: Path, pick: Option<Path>, h: Hash)
    requires Inv(w) && Safe(w, h) && (pick.Some? ==> Survives(w, p, pick.value))
    ensures Safe(Depart(w, p, pick), h)
  {
    assert PathOk(w, p) && SafeAt(w, p, h);
    DepartStep(w, p, pick);
    assert OnlyAdds(w, Depart(w, p, pick), RecordId("", h));
    SafeFrame(w, Depart(w, p, pick), p, h);
  }

  lemma IngestSafe(w: World, p: Path, pick: Option<Path>, fault: Fault, h: Hash)
    requires Inv(w) && p.watch in w.running && (pick.Some? ==> Survives(w, p, pick.value))
    requires Safe(w, h) && Undisturbed(w, p, fault, h)
    ensures Safe(Ingest(w, p, pick, fault), h)
  {
    assert PathOk(w, p) && SafeAt(w, p, h);
    if Accepted(w, p) {
      if fault.AtStat? {
        FailStep(w, w, p);
        assert OnlyAdds(w, Fail(w, p), RecordId("", h));
        SafeFrame(w, Fail(w, p), p, h);
      } else if p !in w.disk {
        DepartSafe(w, p, pick, h);
      } else if Eligible(w.disk[p]) {
        IngestPresentStep(w, p, w.disk[p], fault);
        PresentSafe(w, p, w.disk[p], fault, h);
        SafeFrame(w, IngestPresent(w, p, w.disk[p], fault), p, h);
      }
    }
  }

  lemma UnmarkSafe(w: World, p: Path, h: Hash)
    requires Inv(w) && Safe(w, h) && p in w.files && w.files[p].known.Some?
    ensures Safe(Unmark(w, p), h)
  {
    assert SafeAt(w, p, h);
    UnmarkStep(w, p);
    assert OnlyAdds(w, Unmark(w, p), RecordId("", h));
    SafeFrame(w, Unmark(w, p), p, h);
  }

  lemma RecheckSafe(w: World, p: Path, pick: Option<Path>, fault: Fault, h: Hash)
    requires Inv(w) && ValidPick(w, p, pick) && Safe(w, h) && Undisturbed(w, p, fault, h)
    ensures Safe(RecheckPath(w, p, pick, fault), h)
  {
    assert PathOk(w, p) && SafeAt(w, p, h);
    if p in w.files {
      if w.files[p].lib.Excluded? {
        UnmarkStep(w, p);
        UnmarkSafe(w, p, h);
        IngestSafe(Unmark(w, p), p, pick, fault, h);
      } else if w.files[p].known.Some? {
        SetLibraryStep(w, w, p, Excluded);
        assert OnlyAdds(w, SetLibrary(w, p, Excluded), RecordId("", h));
        SafeFrame(w, SetLibrary(w, p, Excluded), p, h);
      }
    }
  }

  /** Safety reads the rows, which paths are blank, and the records of this content. */
  lemma SafeDependsOn(w: World, w1: World, h: Hash)
    requires Safe(w, h)
    requires forall p :: p in w1.rows ==> p in w.rows && w1.rows[p] == w.rows[p]
    requires forall p :: p in w1.files && w1.files[p].known.None? ==> p in w.files && w.files[p].known.None?
    requires forall id :: id in w.records ==> id in w1.records
    requires forall id :: id in w1.records && id.hash == h ==> Keyed(w1, id)
    ensures Safe(w1, h)
  {
    forall p ensures SafeAt(w1, p, h) {
      assert SafeAt(w, p, h);
    }
  }

  lemma AddBackSafe(w: World, p: Path, granted: bool, pick: Option<Path>, fault: Fault, h: Hash)
    requires Inv(w) && ValidPick(w, p, pick) && Safe(w, h) && Undisturbed(w, p, fault, h)
    ensures Safe(AddBack(w, p, granted, pick, fault), h)
  {
    if AddBackGoesOn(w, p, granted) {
      assert PathOk(w, p) && SafeAt(w, p, h);
      var w0 := Restore(w, w.files[p].known.value.id);
      Untouched(w, w0);
      SafeDependsOn(w, w0, h);
      UnmarkStep(w0, p);
      UnmarkSafe(w0, p, h);
      IngestSafe(Unmark(w0, p), p, pick, fault, h);
    }
  }

  predicate Surrounding(e: Event) {
    e.FileWritten? || e.FileLeft? || e.RecordDeleted? || e.RecordRestored? || e.RecordArrived?
    || e.ProofsChanged? || e.ObjectsChanged?
  }

  lemma SurroundingsKeepSafe(w: World, e: Event, h: Hash)
    requires Surrounding(e) && Enabled(w, e) && Safe(w, h) && Harmless(w, e, h)
    ensures Safe(Step(w, e), h)
  {
    SafeDependsOn(w, Step(w, e), h);
  }

  lemma LoadSafe(w: World, watch: string, h: Hash)
    requires Safe(w, h)
    ensures Safe(Load(w, watch), h)
  {
    var w1 := Load(w, watch);
    forall p | p in w1.files && w1.files[p].known.None? ensures p in w.files && w.files[p].known.None? {
      LoadedIsKnown(w, watch, p);
    }
    assert w1.rows == w.rows && w1.records == w.records;
    forall id | id in w1.records && id.hash == h ensures Keyed(w1, id) {
      assert Keyed(w, id);
    }
    SafeDependsOn(w, w1, h);
  }

  lemma LoadedIsKnown(w: World, watch: string, p: Path)
    requires p in Load(w, watch).files && Load(w, watch).files[p].known.None?
    ensures p in w.files && w.files[p].known.None?
  {
  }

  lemma StopSafe(w: World, watch: string, h: Hash)
    requires Safe(w, h)
    ensures Safe(StopWatch(w, watch), h)
  {
    SafeDependsOn(w, StopWatch(w, watch), h);
  }

  lemma {:induction false} HarmlessKeepsSafe(w: World, e: Event, h: Hash)
    requires Inv(w) && Enabled(w, e) && Safe(w, h) && Harmless(w, e, h)
    ensures Safe(Step(w, e), h)
  {
    match e
    case Ingested(p, pick, fault) => IngestSafe(w, p, pick, fault, h);
    case Reversed(p, pick) => DepartSafe(w, p, pick, h);
    case Rechecked(p, pick, fault) => RecheckSafe(w, p, pick, fault, h);
    case AddedBack(p, granted, pick, fault) => AddBackSafe(w, p, granted, pick, fault, h);
    case WatchLoaded(watch) => LoadSafe(w, watch, h);
    case Restarted => SafeDependsOn(w, Restart(w), h);
    case WatchStopped(watch) => StopSafe(w, watch, h);
    case _ => SurroundingsKeepSafe(w, e, h);
  }

  /** While every record of a content is live and no entry for it is blank, only what is not harmless loses it. */
  lemma HarmlessLosesNothing(w: World, e: Event, h: Hash)
    requires Inv(w) && Enabled(w, e) && Safe(w, h) && Harmless(w, e, h)
    ensures !Loses(w, e, h)
  {
    match e
    case Ingested(p, _, _) => assert PathOk(w, p) && SafeAt(w, p, h);
    case Reversed(p, _) => assert PathOk(w, p) && SafeAt(w, p, h);
    case Rechecked(p, _, _) => assert PathOk(w, p) && SafeAt(w, p, h);
    case _ =>
  }

  lemma {:induction false} NoSilentLoss(w: World, run: seq<Event>, h: Hash)
    requires Inv(w) && Possible(w, run) && HarmlessRun(w, run, h)
    requires Safe(w, h) && Covered(w, h)
    ensures Covered(After(w, run), h)
    decreases |run|
  {
    if run != [] {
      var e := run[0];
      HarmlessLosesNothing(w, e, h);
      ExactLoss(w, e, h);
      HarmlessKeepsSafe(w, e, h);
      StepKeepsInv(w, e);
      NoSilentLoss(Step(w, e), run[1..], h);
    }
  }

  /** A library and a watcher that start with nothing are safe for every content. */
  lemma FreshIsSafe(w: World, h: Hash)
    requires w.records == map[] && w.rows == map[] && w.files == map[]
    ensures Inv(w) && Safe(w, h)
  {
  }

  // ---- Each of the four is needed: from every state where one path is the last to hold a content ----

  /** A failed ingest blanks the entry, and the removal that follows is reported evicted with nothing proved. */
  lemma FailureThenRemovalLoses(w: World, p: Path, h: Hash)
    requires Inv(w) && HoldsAlone(w, p, h) && p.watch in w.running && Accepted(w, p)
    ensures var run := [Ingested(p, None, AtStat), FileLeft(p), Ingested(p, None, NoFault)];
      && Possible(w, run) && !Covered(After(w, run), h)
      && p in After(w, run).rows && After(w, run).rows[p].lib.Evicted?
  {
    var w1 := Fail(w, p);
    var w2 := w1.(disk := w1.disk - {p});
    assert PathOk(w, p);
    LastHasNoSurvivor(w, p, h);
    LastHasNoSurvivor(w2, p, h) by {
      forall q ensures Holds(w2, q, h) <==> Holds(w, q, h) {}
    }
    var e1, e2, e3 := Ingested(p, None, AtStat), FileLeft(p), Ingested(p, None, NoFault);
    assert Step(w, e1) == w1 && Step(w1, e2) == w2;
    var w3 := Step(w2, e3);
    assert w3 == SetLibrary(w2, p, Evicted);
    forall q ensures !Holds(w3, q, h) {
      assert q != p ==> !Holds(w, q, h);
    }
    RunFrom(w2, e3, []);
    RunFrom(w1, e2, [e3]);
    RunFrom(w, e1, [e2, e3]);
    assert [e3] + [] == [e3] && [e2] + [e3] == [e2, e3] && [e1] + [e2, e3] == [e1, e2, e3];
  }

  /** New bytes written over the last path leave the old content nowhere and reported nowhere. */
  lemma OverwriteLoses(w: World, p: Path, f: File, h: Hash)
    requires Inv(w) && HoldsAlone(w, p, h) && p.watch in w.running && Accepted(w, p)
    requires p in w.files && w.files[p].known.Some? && !Tombstoned(w, w.files[p].known.value.id)
    requires Eligible(f) && f.hash != h && f.mtime != w.files[p].known.value.mtime
    ensures var run := [FileWritten(p, f), Ingested(p, None, NoFault)];
      Possible(w, run) && !Covered(After(w, run), h)
  {
    var w1 := w.(disk := w.disk[p := f]);
    assert PathOk(w, p);
    forall q ensures Holds(w1, q, h) <==> Holds(w, q, h) {}
    LastHasNoSurvivor(w1, p, h);
    var e1, e2 := FileWritten(p, f), Ingested(p, None, NoFault);
    assert Inv(w1) by { StepKeepsInv(w, e1); }
    ExactLoss(w1, e2, h);
    assert Step(w, e1) == w1;
    RunFrom(w1, e2, []);
    RunFrom(w, e1, [e2]);
    assert [e2] + [] == [e2] && [e1] + [e2] == [e1, e2];
  }

  lemma LastHasNoSurvivor(w: World, p: Path, h: Hash)
    requires HoldsAlone(w, p, h)
    ensures ValidPick(w, p, None)
  {
    forall q ensures !Survives(w, p, q) {
      assert q != p ==> !Holds(w, q, h);
    }
  }
}
