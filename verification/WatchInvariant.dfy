/**
  What every step of the watcher keeps: table and memory agree, an id is the one
  its name and content give, and no finished step leaves a path pending.
*/
module WatchInvariant {
  import opened Wrappers
  import opened WatchModel

  /** A memory entry is either the table's row, or the blank a failed ingest left behind. */
  predicate EntryAgrees(w: World, p: Path)
    requires p in w.files
  {
    var info := w.files[p];
    if info.known.Some? then
      info.status.Ready? && p in w.rows && w.rows[p] == Row(info.known.value, info.lib)
    else
      || (info.status.Failed? && info.lib.Synced?)
      || (info.status.Ready? && info.lib.Evicted? && (p in w.rows ==> w.rows[p].lib.Evicted?))
  }

  /** One path's row and entry are in order. */
  predicate PathOk(w: World, p: Path) {
    && (p in w.rows ==> w.rows[p].tracked.id == IdOf(p, w.rows[p].tracked.hash))
    && (p in w.files ==> p.watch in w.running && EntryAgrees(w, p))
    && (p in w.rows && p.watch in w.running ==> p in w.files)
  }

  /** A key names the content of the record that holds it. */
  ghost predicate KeysOk(w: World) {
    forall id :: id in w.records && w.records[id].key.Some? ==> w.records[id].key.value.hash == id.hash
  }

  ghost predicate Inv(w: World) { KeysOk(w) && forall p :: PathOk(w, p) }

  /** The invariant, but for one path. */
  ghost predicate InvBut(w: World, p: Path) { KeysOk(w) && forall q :: q != p ==> PathOk(w, q) }

  predicate SameAt(w: World, w1: World, q: Path) {
    && (q in w1.rows <==> q in w.rows) && (q in w.rows ==> w1.rows[q] == w.rows[q])
    && (q in w1.files <==> q in w.files) && (q in w.files ==> w1.files[q] == w.files[q])
  }

  /** Everything but one path's row and entry, the records, and the object store. */
  ghost predicate OnlyAt(w: World, w1: World, p: Path) {
    && w1.configs == w.configs && w1.kindOf == w.kindOf && w1.running == w.running && w1.disk == w.disk
    && w1.provable == w.provable && w.proved <= w1.proved
    && forall q :: q != p ==> SameAt(w, w1, q)
  }

  /** No record changes; at most the one for `id` is new, live and with its own key. */
  ghost predicate OnlyAdds(w: World, w1: World, id: RecordId) {
    w1.records == w.records || (id !in w.records && w1.records == w.records[id := Record(false, Some(KeyOf(w, id)))])
  }

  lemma Framed(w: World, w1: World, p: Path)
    requires InvBut(w, p) && OnlyAt(w, w1, p) && KeysOk(w1)
    ensures InvBut(w1, p)
  {
    forall q | q != p ensures PathOk(w1, q) {
      assert PathOk(w, q) && SameAt(w, w1, q);
    }
  }

  /** A step that writes at `p` keeps the invariant once `p` itself is in order. */
  lemma Written(w: World, w1: World, p: Path)
    requires InvBut(w, p) && OnlyAt(w, w1, p) && KeysOk(w1) && PathOk(w1, p)
    ensures Inv(w1)
  {
    Framed(w, w1, p);
  }

  /** `w` with other records, objects and proofs, and no row or entry touched. */
  ghost predicate SameTracking(w: World, w1: World) {
    && w1.configs == w.configs && w1.kindOf == w.kindOf && w1.running == w.running && w1.disk == w.disk
    && w1.provable == w.provable && w.proved <= w1.proved
    && w1.rows == w.rows && w1.files == w.files && KeysOk(w1)
  }

  lemma TrackStep(w: World, w0: World, p: Path, t: Tracked, lib: Library)
    requires InvBut(w, p) && SameTracking(w, w0)
    requires p.watch in w.running && t.id == IdOf(p, t.hash)
    ensures Inv(Track(w0, p, t, lib)) && OnlyAt(w, Track(w0, p, t, lib), p)
  {
    Written(w, Track(w0, p, t, lib), p);
  }

  lemma FailStep(w: World, w0: World, p: Path)
    requires InvBut(w, p) && SameTracking(w, w0)
    requires p.watch in w.running && (p in w.rows ==> w.rows[p].tracked.id == IdOf(p, w.rows[p].tracked.hash))
    ensures Inv(Fail(w0, p)) && OnlyAt(w, Fail(w0, p), p)
  {
    Written(w, Fail(w0, p), p);
  }

  lemma EnsureStep(w: World, id: RecordId, p: Path)
    requires KeysOk(w)
    ensures SameTracking(w, Ensure(w, id, p)) && Ensure(w, id, p).records == w.records
    ensures Ensure(w, id, p).proved == w.proved
  {
  }

  lemma PutStep(w: World, p: Path, id: RecordId)
    requires KeysOk(w) && id !in w.records
    ensures SameTracking(w, PutRecord(w, p, id)) && OnlyAdds(w, PutRecord(w, p, id), id)
    ensures PutRecord(w, p, id).proved == w.proved
  {
  }

  lemma RegisterStep(w: World, p: Path, f: File, fault: Fault)
    requires InvBut(w, p) && p.watch in w.running
    requires p in w.rows ==> w.rows[p].tracked.id == IdOf(p, w.rows[p].tracked.hash)
    ensures var w1 := Register(w, p, f, fault);
      Inv(w1) && OnlyAt(w, w1, p) && OnlyAdds(w, w1, IdOf(p, f.hash)) && w1.proved == w.proved
  {
    var t := TrackedAs(p, f);
    if Tombstoned(w, t.id) {
      if fault.AtTrack? { FailStep(w, w, p); } else { TrackStep(w, w, p, t, Excluded); }
    } else if t.id in w.records {
      EnsureStep(w, t.id, p);
      if fault.AtTrack? { FailStep(w, Ensure(w, t.id, p), p); } else { TrackStep(w, Ensure(w, t.id, p), p, t, Synced); }
    } else if fault.AtPut? {
      FailStep(w, PutLink(w, KeyOf(w, t.id), p), p);
    } else {
      PutStep(w, p, t.id);
      if fault.AtTrack? { FailStep(w, PutRecord(w, p, t.id), p); } else { TrackStep(w, PutRecord(w, p, t.id), p, t, Synced); }
    }
  }

  /** Two writes at one path are one write at that path. */
  lemma OnlyAtTwice(w: World, w0: World, w1: World, p: Path)
    requires OnlyAt(w, w0, p) && OnlyAt(w0, w1, p)
    ensures OnlyAt(w, w1, p)
  {
    forall q | q != p ensures SameAt(w, w1, q) {
      assert SameAt(w, w0, q) && SameAt(w0, w1, q);
    }
  }

  lemma DropStep(w: World, p: Path)
    requires Inv(w)
    ensures InvBut(DropTracking(w, p), p) && OnlyAt(w, DropTracking(w, p), p)
  {
    Framed(w, DropTracking(w, p), p);
  }

  lemma RefreshStep(w: World, p: Path, f: File, fault: Fault)
    requires Inv(w) && p in w.files && w.files[p].known.Some?
    ensures var w1 := Refresh(w, p, f, w.files[p], fault);
      Inv(w1) && OnlyAt(w, w1, p) && OnlyAdds(w, w1, IdOf(p, f.hash)) && w1.proved == w.proved
  {
    assert PathOk(w, p);
    var t := w.files[p].known.value;
    EnsureStep(w, t.id, p);
    if w.files[p].status.Ready? && w.files[p].lib.Synced? && t.mtime == f.mtime && Keyed(w, t.id) {
      Untouched(w, Ensure(w, t.id, p));
    } else if t.hash != f.hash {
      RegisterStep(w, p, f, fault);
    } else if Keyed(w, t.id) {
      if fault.AtTrack? {
        FailStep(w, Ensure(w, t.id, p), p);
      } else {
        TrackStep(w, Ensure(w, t.id, p), p, t.(mtime := f.mtime), Synced);
      }
    } else {
      var w0 := DropTracking(w, p);
      DropStep(w, p);
      RegisterStep(w0, p, f, fault);
      OnlyAtTwice(w, w0, Register(w0, p, f, fault), p);
    }
  }

  lemma IngestPresentStep(w: World, p: Path, f: File, fault: Fault)
    requires Inv(w) && p.watch in w.running
    ensures var w1 := IngestPresent(w, p, f, fault);
      Inv(w1) && OnlyAt(w, w1, p) && OnlyAdds(w, w1, IdOf(p, f.hash)) && w1.proved == w.proved
  {
    assert PathOk(w, p);
    if p !in w.files || w.files[p].known.None? || w.files[p].lib.Excluded? {
      RegisterStep(w, p, f, fault);
    } else if Tombstoned(w, w.files[p].known.value.id) {
      SetLibraryStep(w, w, p, Excluded);
    } else {
      RefreshStep(w, p, f, fault);
    }
  }

  lemma SetLibraryStep(w: World, w0: World, p: Path, lib: Library)
    requires Inv(w) && SameTracking(w, w0) && p in w.files
    requires w.files[p].known.Some? || lib.Evicted?
    ensures Inv(SetLibrary(w0, p, lib)) && OnlyAt(w, SetLibrary(w0, p, lib), p)
  {
    assert PathOk(w, p);
    Written(w, SetLibrary(w0, p, lib), p);
  }

  lemma EvictStep(w: World, p: Path, id: RecordId, pick: Option<Path>)
    requires KeysOk(w) && (pick.Some? ==> Survives(w, p, pick.value))
    ensures SameTracking(w, Evict(w, p, id, pick).world) && Evict(w, p, id, pick).world.records == w.records
  {
    if pick.Some? {
      EnsureStep(w, w.rows[pick.value].tracked.id, pick.value);
    }
  }

  lemma DepartStep(w: World, p: Path, pick: Option<Path>)
    requires Inv(w) && (pick.Some? ==> Survives(w, p, pick.value))
    ensures var w1 := Depart(w, p, pick);
      Inv(w1) && OnlyAt(w, w1, p) && w1.records == w.records
  {
    if p in w.files {
      if w.files[p].known.None? {
        SetLibraryStep(w, w, p, Evicted);
      } else {
        var v := Evict(w, p, w.files[p].known.value.id, pick);
        EvictStep(w, p, w.files[p].known.value.id, pick);
        SetLibraryStep(w, v.world, p, v.lib);
      }
    }
  }

  lemma IngestStep(w: World, p: Path, pick: Option<Path>, fault: Fault)
    requires Inv(w) && p.watch in w.running
    requires pick.Some? ==> Survives(w, p, pick.value)
    ensures var w1 := Ingest(w, p, pick, fault);
      Inv(w1) && OnlyAt(w, w1, p)
      && (w1.records == w.records || (p in w.disk && OnlyAdds(w, w1, IdOf(p, w.disk[p].hash))))
  {
    if Accepted(w, p) {
      if fault.AtStat? {
        assert PathOk(w, p);
        FailStep(w, w, p);
      } else if p !in w.disk {
        DepartStep(w, p, pick);
      } else if Eligible(w.disk[p]) {
        IngestPresentStep(w, p, w.disk[p], fault);
      }
    }
  }

  lemma UnmarkStep(w: World, p: Path)
    requires Inv(w) && p in w.files && w.files[p].known.Some?
    ensures Inv(Unmark(w, p)) && OnlyAt(w, Unmark(w, p), p)
  {
    assert PathOk(w, p);
    Written(w, Unmark(w, p), p);
  }

  /** A step that touches no row and no entry. */
  lemma Untouched(w: World, w1: World)
    requires Inv(w) && KeysOk(w1)
    requires w1.rows == w.rows && w1.files == w.files && w1.running == w.running
    ensures Inv(w1)
  {
    forall p ensures PathOk(w1, p) {
      assert PathOk(w, p);
    }
  }

  lemma LoadStep(w: World, watch: string)
    requires Inv(w)
    ensures Inv(Load(w, watch))
  {
    forall p ensures PathOk(Load(w, watch), p) {
      assert PathOk(w, p);
    }
  }

  lemma RestartStep(w: World)
    requires Inv(w)
    ensures Inv(Restart(w))
  {
    forall p ensures PathOk(Restart(w), p) {
      assert PathOk(w, p);
    }
  }

  lemma StopStep(w: World, watch: string)
    requires Inv(w)
    ensures Inv(StopWatch(w, watch))
  {
    forall p ensures PathOk(StopWatch(w, watch), p) {
      assert PathOk(w, p);
    }
  }

  lemma RecheckStep(w: World, p: Path, pick: Option<Path>, fault: Fault)
    requires Inv(w) && ValidPick(w, p, pick)
    ensures Inv(RecheckPath(w, p, pick, fault))
  {
    assert PathOk(w, p);
    if p in w.files {
      if w.files[p].lib.Synced? && w.files[p].known.Some? {
        SetLibraryStep(w, w, p, Excluded);
      } else if w.files[p].lib.Excluded? {
        UnmarkStep(w, p);
        IngestStep(Unmark(w, p), p, pick, fault);
      }
    }
  }

  lemma AddBackStep(w: World, p: Path, granted: bool, pick: Option<Path>, fault: Fault)
    requires Inv(w) && ValidPick(w, p, pick)
    ensures Inv(AddBack(w, p, granted, pick, fault))
  {
    if AddBackGoesOn(w, p, granted) {
      assert PathOk(w, p);
      var w0 := Restore(w, w.files[p].known.value.id);
      Untouched(w, w0);
      UnmarkStep(w0, p);
      IngestStep(Unmark(w0, p), p, pick, fault);
    }
  }

  lemma {:induction false} StepKeepsInv(w: World, e: Event)
    requires Inv(w) && Enabled(w, e)
    ensures Inv(Step(w, e))
  {
    match e
    case Ingested(p, pick, fault) => IngestStep(w, p, pick, fault);
    case Reversed(p, pick) => DepartStep(w, p, pick);
    case Rechecked(p, pick, fault) => RecheckStep(w, p, pick, fault);
    case AddedBack(p, granted, pick, fault) => AddBackStep(w, p, granted, pick, fault);
    case WatchLoaded(watch) => LoadStep(w, watch);
    case Restarted => RestartStep(w);
    case WatchStopped(watch) => StopStep(w, watch);
    case _ => Untouched(w, Step(w, e));
  }

  /** No run leaves a path pending, and memory never disagrees with the table. */
  lemma {:induction false} RunKeepsInv(w: World, run: seq<Event>)
    requires Inv(w) && Possible(w, run)
    ensures Inv(After(w, run))
    ensures forall p :: p in After(w, run).files ==> !After(w, run).files[p].status.Pending?
    decreases |run|
  {
    if run != [] {
      StepKeepsInv(w, run[0]);
      RunKeepsInv(Step(w, run[0]), run[1..]);
    } else {
      forall p | p in w.files ensures !w.files[p].status.Pending? {
        assert PathOk(w, p);
      }
    }
  }

  // ---- Restart ----

  /** The entry a failed ingest leaves, or its departure. */
  predicate Blank(w: World, p: Path) { p in w.files && w.files[p].known.None? }

  /** The watch's entries load back as they were. */
  ghost predicate LoadsBack(w: World, watch: string) {
    var w1 := Load(Restart(w), watch);
    && w1.rows == w.rows
    && forall p: Path :: p.watch == watch ==>
         (p in w1.files <==> p in w.files) && (p in w.files ==> w1.files[p] == w.files[p])
  }

  /** What is loaded back after a restart is what was in memory, exactly if no entry of the watch is blank. */
  lemma LoadRestoresMemory(w: World, watch: string)
    requires Inv(w) && watch in w.running
    ensures LoadsBack(w, watch) <==> forall p: Path :: p.watch == watch ==> !Blank(w, p)
  {
    var w1 := Load(Restart(w), watch);
    if forall p: Path :: p.watch == watch ==> !Blank(w, p) {
      forall p: Path | p.watch == watch
        ensures (p in w1.files <==> p in w.files) && (p in w.files ==> w1.files[p] == w.files[p])
      {
        assert PathOk(w, p) && !Blank(w, p);
      }
    } else {
      var p: Path :| p.watch == watch && Blank(w, p);
      assert p in w1.files ==> p in Loaded(w.rows, watch) && w1.files[p].known.Some?;
    }
  }

  /** Nothing in the step fails. */
  predicate ErrorFree(e: Event) {
    match e
    case Ingested(_, _, fault) => fault.NoFault?
    case Rechecked(_, _, fault) => fault.NoFault?
    case AddedBack(_, _, _, fault) => fault.NoFault?
    case _ => true
  }

  lemma RegisterFills(w: World, p: Path, f: File)
    ensures !Blank(Register(w, p, f, NoFault), p)
  {
  }

  lemma DepartMakesNoBlank(w: World, p: Path, pick: Option<Path>)
    requires PathOk(w, p) && (pick.Some? ==> Survives(w, p, pick.value))
    ensures Blank(Depart(w, p, pick), p) ==> Blank(w, p)
  {
  }

  lemma PresentMakesNoBlank(w: World, p: Path, f: File)
    ensures Blank(IngestPresent(w, p, f, NoFault), p) ==> Blank(w, p)
  {
    hide Register;
    RegisterFills(w, p, f);
    RegisterFills(DropTracking(w, p), p, f);
  }

  lemma IngestMakesNoBlank(w: World, p: Path, pick: Option<Path>)
    requires PathOk(w, p) && (pick.Some? ==> Survives(w, p, pick.value))
    ensures Blank(Ingest(w, p, pick, NoFault), p) ==> Blank(w, p)
  {
    hide IngestPresent, Depart, Survives, PathOk, Blank;
    DepartMakesNoBlank(w, p, pick);
    if p in w.disk { PresentMakesNoBlank(w, p, w.disk[p]); }
  }

  lemma StepMakesNoBlank(w: World, e: Event, p: Path)
    requires Inv(w) && Enabled(w, e) && ErrorFree(e)
    ensures Blank(Step(w, e), p) ==> Blank(w, p)
  {
    match e
    case Ingested(q, pick, fault) =>
      IngestStep(w, q, pick, fault);
      if q == p { IngestMakesNoBlank(w, p, pick); } else { assert SameAt(w, Step(w, e), p); }
    case Reversed(q, pick) =>
      DepartStep(w, q, pick);
      if q != p { assert SameAt(w, Step(w, e), p); }
    case Rechecked(q, pick, fault) => RecheckMakesNoBlank(w, q, pick, p);
    case AddedBack(q, granted, pick, fault) => AddBackMakesNoBlank(w, q, granted, pick, p);
    case _ =>
  }

  lemma UnmarkMakesNoBlank(w: World, q: Path, pick: Option<Path>, p: Path)
    requires Inv(w) && q in w.files && w.files[q].known.Some? && (pick.Some? ==> Survives(Unmark(w, q), q, pick.value))
    ensures Blank(Ingest(Unmark(w, q), q, pick, NoFault), p) ==> Blank(w, p)
  {
    var w0 := Unmark(w, q);
    UnmarkStep(w, q);
    assert PathOk(w0, q);
    IngestStep(w0, q, pick, NoFault);
    if q == p { IngestMakesNoBlank(w0, p, pick); } else { assert SameAt(w0, Ingest(w0, q, pick, NoFault), p); }
  }

  lemma RecheckMakesNoBlank(w: World, q: Path, pick: Option<Path>, p: Path)
    requires Inv(w) && ValidPick(w, q, pick)
    ensures Blank(RecheckPath(w, q, pick, NoFault), p) ==> Blank(w, p)
  {
    assert PathOk(w, q);
    if q in w.files && w.files[q].known.Some? { UnmarkMakesNoBlank(w, q, pick, p); }
  }

  lemma AddBackMakesNoBlank(w: World, q: Path, granted: bool, pick: Option<Path>, p: Path)
    requires Inv(w) && ValidPick(w, q, pick)
    ensures Blank(AddBack(w, q, granted, pick, NoFault), p) ==> Blank(w, p)
  {
    if AddBackGoesOn(w, q, granted) {
      var w0 := Restore(w, w.files[q].known.value.id);
      Untouched(w, w0);
      UnmarkMakesNoBlank(w0, q, pick, p);
    }
  }

  /** After every run in which nothing failed, a restart loads back what was in memory. */
  lemma {:induction false} ErrorFreeRunsLoadBack(w: World, run: seq<Event>, watch: string)
    requires Inv(w) && Possible(w, run) && forall p :: !Blank(w, p)
    requires forall e :: e in run ==> ErrorFree(e)
    ensures forall p :: !Blank(After(w, run), p)
    ensures watch in After(w, run).running ==> LoadsBack(After(w, run), watch)
    decreases |run|
  {
    if run == [] {
      if watch in w.running { LoadRestoresMemory(w, watch); }
    } else {
      assert run[0] in run;
      forall p ensures !Blank(Step(w, run[0]), p) {
        StepMakesNoBlank(w, run[0], p);
      }
      StepKeepsInv(w, run[0]);
      ErrorFreeRunsLoadBack(Step(w, run[0]), run[1..], watch);
    }
  }
}
