/**
  The local object store: which entries answer, and what a step of the watcher may
  link or drop there.

  A step moves at most one entry (`OneEntryMoves`): it links one that did not
  answer to a file that is there, or drops one whose content it has just proved in
  the cloud. So an entry that answers goes on answering until its file leaves, the
  store is changed by someone else, or its content is proved
  (`AnswersUntilProved`); what an ingest leaves synced answers (`IngestAnswers`),
  what a departure leaves to a survivor answers (`SurvivorAnswers`), and after a
  startup scan every synced file of the watch answers (`ScanAnswers`).
*/
module WatchObjects {
  import opened Wrappers
  import opened WatchModel
  import opened WatchInvariant
  import opened WatchScan

  /** `key`'s entry, which did not answer, becomes a link to a file on the disk; no other entry moves. */
  ghost predicate LinkedAt(w: World, w1: World, key: Key, q: Path) {
    && !Has(w, key) && q in w.disk && w.disk[q].regular && w1.objects == w.objects[key := Link(q)] && w1.proved == w.proved
    && (HonestClock(w) ==> w.disk[q].hash == key.hash)
  }

  /** `key`'s entry goes, its content proved in the cloud by this very step; no other entry moves. */
  predicate DroppedAt(w: World, w1: World, key: Key) {
    w1.objects == w.objects - {key} && w1.proved == w.proved + {key.hash}
  }

  predicate StoreKept(w: World, w1: World) { w1.objects == w.objects && w1.proved == w.proved }

  ghost predicate AtMostLinked(w: World, w1: World) {
    StoreKept(w, w1) || exists key, q :: LinkedAt(w, w1, key, q)
  }

  ghost predicate OneMove(w: World, w1: World) { AtMostLinked(w, w1) || exists key :: DroppedAt(w, w1, key) }

  // ---- One step ----

  lemma LinkMoves(w: World, w1: World, key: Key, q: Path)
    requires q in w.disk && w.disk[q].regular && (HonestClock(w) ==> w.disk[q].hash == key.hash)
    requires w1.objects == PutLink(w, key, q).objects && w1.proved == w.proved
    ensures AtMostLinked(w, w1)
    ensures w1.disk == w.disk ==> Has(w1, key)
  {
    if !Has(w, key) { assert LinkedAt(w, w1, key, q); }
  }

  lemma RegisterMoves(w: World, p: Path, f: File, fault: Fault)
    requires KeysOk(w) && p in w.disk && w.disk[p] == f && f.regular
    ensures AtMostLinked(w, Register(w, p, f, fault))
  {
    var id := IdOf(p, f.hash);
    var w1 := Register(w, p, f, fault);
    if Keyed(w, id) { LinkMoves(w, w1, w.records[id].key.value, p); }
    if id !in w.records { LinkMoves(w, w1, KeyOf(w, id), p); }
  }

  lemma PresentMoves(w: World, p: Path, fault: Fault)
    requires KeysOk(w) && PathOk(w, p) && p in w.disk && w.disk[p].regular
    ensures AtMostLinked(w, IngestPresent(w, p, w.disk[p], fault))
  {
    var f := w.disk[p];
    var w1 := IngestPresent(w, p, f, fault);
    RegisterMoves(w, p, f, fault);
    DroppedRegisterMoves(w, p, fault);
    if p in w.files && w.files[p].known.Some? && Keyed(w, w.files[p].known.value.id) {
      var t := w.files[p].known.value;
      hide Register;
      if t.mtime == f.mtime || t.hash == f.hash { KnownBytes(w, p); }
      if t.hash == f.hash || (w.files[p].lib.Synced? && t.mtime == f.mtime) {
        if StoreKept(w, w1) {
        } else {
          LinkMoves(w, w1, w.records[t.id].key.value, p);
        }
      }
    }
  }

  /** A tracked file whose mtime or content is the tracked one has the bytes its record's key names. */
  lemma KnownBytes(w: World, p: Path)
    requires KeysOk(w) && PathOk(w, p) && p in w.disk && p in w.files && w.files[p].known.Some?
    requires Keyed(w, w.files[p].known.value.id)
    requires w.files[p].known.value.mtime == w.disk[p].mtime || w.files[p].known.value.hash == w.disk[p].hash
    ensures HonestClock(w) ==> w.disk[p].hash == w.records[w.files[p].known.value.id].key.value.hash
  {
  }

  lemma DroppedRegisterMoves(w: World, p: Path, fault: Fault)
    requires KeysOk(w) && p in w.disk && w.disk[p].regular
    ensures AtMostLinked(w, Register(DropTracking(w, p), p, w.disk[p], fault))
  {
    var w0 := DropTracking(w, p);
    var w1 := Register(w0, p, w.disk[p], fault);
    RegisterMoves(w0, p, w.disk[p], fault);
    hide Register;
    SameStores(w, w0, w1);
  }

  /** Worlds with one disk and one store, the first with the second's rows or more: what moves in one moves in the other. */
  lemma SameStores(w: World, w0: World, w1: World)
    requires w0.disk == w.disk && w0.objects == w.objects && w0.proved == w.proved && (HonestClock(w) ==> HonestClock(w0))
    ensures AtMostLinked(w0, w1) ==> AtMostLinked(w, w1)
    ensures OneMove(w0, w1) ==> OneMove(w, w1)
  {
    if !StoreKept(w0, w1) {
      if key, q :| LinkedAt(w0, w1, key, q) { assert LinkedAt(w, w1, key, q); }
      if key :| DroppedAt(w0, w1, key) { assert DroppedAt(w, w1, key); }
    }
  }

  lemma DepartMoves(w: World, p: Path, pick: Option<Path>)
    requires KeysOk(w) && PathOk(w, p) && (pick.Some? ==> Survives(w, p, pick.value) && PathOk(w, pick.value))
    ensures OneMove(w, Depart(w, p, pick))
  {
    var w1 := Depart(w, p, pick);
    if p in w.files && w.files[p].known.Some? && Keyed(w, w.files[p].known.value.id) {
      var id := w.files[p].known.value.id;
      if pick.Some? && Keyed(w, w.rows[pick.value].tracked.id) {
        LinkMoves(w, w1, w.records[w.rows[pick.value].tracked.id].key.value, pick.value);
      } else if id in w.provable {
        assert DroppedAt(w, w1, w.records[id].key.value);
      }
    }
  }

  lemma IngestMoves(w: World, p: Path, pick: Option<Path>, fault: Fault)
    requires KeysOk(w) && PathOk(w, p) && (pick.Some? ==> Survives(w, p, pick.value) && PathOk(w, pick.value))
    ensures OneMove(w, Ingest(w, p, pick, fault))
    ensures p in w.disk ==> AtMostLinked(w, Ingest(w, p, pick, fault))
  {
    hide IngestPresent, Depart;
    DepartMoves(w, p, pick);
    if p in w.disk && Eligible(w.disk[p]) { PresentMoves(w, p, fault); }
  }


  lemma UnmarkedMoves(w: World, w0: World, p: Path, pick: Option<Path>, fault: Fault)
    requires Inv(w0) && p in w0.files && w0.files[p].known.Some? && ValidPick(w0, p, pick)
    requires w0.disk == w.disk && w0.objects == w.objects && w0.proved == w.proved && w0.rows == w.rows
    ensures OneMove(w, Ingest(Unmark(w0, p), p, pick, fault))
  {
    var marked := Unmark(w0, p);
    UnmarkStep(w0, p);
    assert PathOk(marked, p) && (pick.Some? ==> PathOk(marked, pick.value) && Survives(marked, p, pick.value));
    IngestMoves(marked, p, pick, fault);
    assert forall q :: q in marked.rows ==> q in w.rows && marked.rows[q].tracked == w.rows[q].tracked;
    hide Ingest, Unmark;
    SameStores(w, marked, Ingest(marked, p, pick, fault));
  }

  lemma RecheckMoves(w: World, p: Path, pick: Option<Path>, fault: Fault)
    requires Inv(w) && ValidPick(w, p, pick)
    ensures OneMove(w, RecheckPath(w, p, pick, fault))
  {
    assert PathOk(w, p);
    hide Ingest;
    if p in w.files && w.files[p].known.Some? { UnmarkedMoves(w, w, p, pick, fault); }
  }

  lemma AddBackMoves(w: World, p: Path, granted: bool, pick: Option<Path>, fault: Fault)
    requires Inv(w) && ValidPick(w, p, pick)
    ensures OneMove(w, AddBack(w, p, granted, pick, fault))
  {
    hide Ingest;
    if AddBackGoesOn(w, p, granted) {
      var w0 := Restore(w, w.files[p].known.value.id);
      Untouched(w, w0);
      forall q ensures Survives(w0, p, q) <==> Survives(w, p, q) {}
      UnmarkedMoves(w, w0, p, pick, fault);
    }
  }

  /** Whatever happens, unless it happens to the store itself: at most one entry moves, in one of the two ways. */
  lemma OneEntryMoves(w: World, e: Event)
    requires Inv(w) && Enabled(w, e) && !e.ObjectsChanged?
    ensures OneMove(w, Step(w, e))
  {
    hide Ingest, Depart, RecheckPath, AddBack;
    match e
    case Ingested(p, pick, fault) => PicksOk(w, p, pick); IngestMoves(w, p, pick, fault);
    case Reversed(p, pick) => PicksOk(w, p, pick); DepartMoves(w, p, pick);
    case Rechecked(p, pick, fault) => RecheckMoves(w, p, pick, fault);
    case AddedBack(p, granted, pick, fault) => AddBackMoves(w, p, granted, pick, fault);
    case _ =>
  }

  lemma PicksOk(w: World, p: Path, pick: Option<Path>)
    requires Inv(w) && ValidPick(w, p, pick)
    ensures PathOk(w, p) && (pick.Some? ==> PathOk(w, pick.value) && Survives(w, p, pick.value))
  {
  }

  lemma StillAnswers(w: World, w1: World, key: Key)
    requires OneMove(w, w1) && Has(w, key) && w1.disk.Keys == w.disk.Keys
    ensures w.proved <= w1.proved
    ensures (Has(w1, key) && w1.objects[key] == w.objects[key]) || key.hash in w1.proved
  {
  }

  // ---- Whole runs ----

  /** Nobody else takes the entry away: not the file it leads to, and not whoever else writes the store. */
  ghost predicate LeftAlone(w: World, run: seq<Event>, key: Key)
    requires Possible(w, run)
    decreases |run|
  {
    run != [] ==>
      && !run[0].ObjectsChanged?
      && !(run[0].FileLeft? && key in w.objects && w.objects[key] == Link(run[0].path))
      && LeftAlone(Step(w, run[0]), run[1..], key)
  }

  lemma AnswersThrough(w: World, e: Event, key: Key)
    requires Inv(w) && Enabled(w, e) && Has(w, key) && !e.ObjectsChanged?
    requires !(e.FileLeft? && w.objects[key] == Link(e.path))
    ensures Has(Step(w, e), key) || key.hash in Step(w, e).proved
  {
    if e.FileLeft? || e.FileWritten? {
    } else {
      OneEntryMoves(w, e);
      DiskKept(w, e);
      StillAnswers(w, Step(w, e), key);
    }
  }

  lemma DiskKept(w: World, e: Event)
    requires Inv(w) && Enabled(w, e) && !e.FileLeft? && !e.FileWritten?
    ensures Step(w, e).disk == w.disk
  {
    match e
    case Ingested(p, pick, fault) => IngestStep(w, p, pick, fault);
    case Reversed(p, pick) => DepartStep(w, p, pick);
    case Rechecked(p, pick, fault) => RecheckKeepsDisk(w, p, pick, fault);
    case AddedBack(p, granted, pick, fault) => AddBackKeepsDisk(w, p, granted, pick, fault);
    case _ =>
  }

  lemma RecheckKeepsDisk(w: World, p: Path, pick: Option<Path>, fault: Fault)
    requires Inv(w) && ValidPick(w, p, pick)
    ensures RecheckPath(w, p, pick, fault).disk == w.disk
  {
    hide Ingest;
    assert PathOk(w, p);
    if p in w.files && w.files[p].known.Some? { UnmarkedKeepsDisk(w, p, pick, fault); }
  }

  lemma UnmarkedKeepsDisk(w: World, p: Path, pick: Option<Path>, fault: Fault)
    requires Inv(w) && p in w.files && w.files[p].known.Some? && ValidPick(w, p, pick)
    ensures Ingest(Unmark(w, p), p, pick, fault).disk == w.disk
  {
    hide Ingest;
    UnmarkStep(w, p);
    assert PathOk(Unmark(w, p), p);
    IngestStep(Unmark(w, p), p, pick, fault);
  }

  lemma AddBackKeepsDisk(w: World, p: Path, granted: bool, pick: Option<Path>, fault: Fault)
    requires Inv(w) && ValidPick(w, p, pick)
    ensures AddBack(w, p, granted, pick, fault).disk == w.disk
  {
    hide Ingest;
    if AddBackGoesOn(w, p, granted) {
      var w0 := Restore(w, w.files[p].known.value.id);
      Untouched(w, w0);
      forall q ensures Survives(w0, p, q) <==> Survives(w, p, q) {}
      UnmarkedKeepsDisk(w0, p, pick, fault);
    }
  }

  lemma {:induction false} ProvedStays(w: World, run: seq<Event>)
    requires Inv(w) && Possible(w, run)
    ensures w.proved <= After(w, run).proved
    decreases |run|
  {
    if run != [] {
      if !run[0].ObjectsChanged? { OneEntryMoves(w, run[0]); }
      StepKeepsInv(w, run[0]);
      ProvedStays(Step(w, run[0]), run[1..]);
    }
  }

  /** An entry that answers goes on answering, whatever the watcher does, until its content is proved in the cloud. */
  lemma {:induction false} AnswersUntilProved(w: World, run: seq<Event>, key: Key)
    requires Inv(w) && Possible(w, run) && Has(w, key) && LeftAlone(w, run, key)
    ensures Has(After(w, run), key) || key.hash in After(w, run).proved
    decreases |run|
  {
    if run != [] {
      var w1 := Step(w, run[0]);
      AnswersThrough(w, run[0], key);
      StepKeepsInv(w, run[0]);
      if Has(w1, key) { AnswersUntilProved(w1, run[1..], key); } else { ProvedStays(w1, run[1..]); }
    }
  }

  // ---- What a step leaves answering ----

  /** If the path is synced and its record has a key, the store answers for that key. */
  predicate Answering(w: World, p: Path) {
    p in w.rows && w.rows[p].lib.Synced? && Keyed(w, w.rows[p].tracked.id) ==> Has(w, w.records[w.rows[p].tracked.id].key.value)
  }

  lemma RegisterAnswers(w: World, p: Path, f: File)
    requires p in w.disk
    ensures Answering(Register(w, p, f, NoFault), p)
  {
  }

  lemma RestoreAnswers(w: World, p: Path, f: File, t: Tracked)
    requires p in w.disk
    ensures Answering(RestoreEntry(w, p, f, t, NoFault), p)
  {
    hide Register;
    RegisterAnswers(DropTracking(w, p), p, f);
  }

  lemma PresentAnswers(w: World, p: Path)
    requires PathOk(w, p) && p in w.disk
    ensures Answering(IngestPresent(w, p, w.disk[p], NoFault), p)
  {
    RegisterAnswers(w, p, w.disk[p]);
    if p in w.files && w.files[p].known.Some? { RestoreAnswers(w, p, w.disk[p], w.files[p].known.value); }
    hide Register, RestoreEntry;
  }

  /** A file whose path an error-free ingest leaves synced can be had from the store, as can all that could before. */
  lemma IngestAnswers(w: World, p: Path, pick: Option<Path>)
    requires Inv(w) && Scannable(w, p) && ValidPick(w, p, pick)
    ensures Answering(Ingest(w, p, pick, NoFault), p)
    ensures var w1 := Ingest(w, p, pick, NoFault);
      && (p in w1.rows && w1.rows[p].lib.Synced? && Keyed(w1, w1.rows[p].tracked.id) ==>
            var key := w1.records[w1.rows[p].tracked.id].key.value;
            key in w1.objects && (w1.objects[key].Link? ==> w1.objects[key].target in w1.disk))
      && forall key :: Has(w, key) ==> Has(w1, key) && w1.objects[key] == w.objects[key]
  {
    PicksOk(w, p, pick);
    PresentAnswers(w, p);
    IngestMoves(w, p, pick, NoFault);
    IngestStep(w, p, pick, NoFault);
    hide IngestPresent;
  }

  /**
   * A tracked file has left. Its path is reported possibly lost exactly if its record has a key, the survivor found has
   * none to offer, and the cloud copies cannot be proved; only a proof drops its entry, and a survivor's entry answers.
   */
  lemma DepartureExactly(w: World, p: Path, pick: Option<Path>)
    requires Inv(w) && p in w.files && w.files[p].known.Some? && ValidPick(w, p, pick)
    ensures var id, w1 := w.files[p].known.value.id, Depart(w, p, pick);
      var kept := pick.Some? && Keyed(w, w.rows[pick.value].tracked.id);
      && w1.files[p] == w.files[p].(lib := if Keyed(w, id) && !kept && id !in w.provable then PossiblyLost else Evicted)
      && (Keyed(w, id) && kept ==> Has(w1, w.records[w.rows[pick.value].tracked.id].key.value))
      && (w1.files[p].lib.PossiblyLost? ==> StoreKept(w, w1))
      && forall key :: key in w.objects && key !in w1.objects <==>
           key in w.objects && Keyed(w, id) && key == w.records[id].key.value && !kept && id in w.provable
  {
    assert PathOk(w, p);
  }

  /** A survivor is another synced path of that content, on the disk as a file whose mtime is the tracked one. */
  lemma PicksSupply(w: World, p: Path, pick: Option<Path>)
    requires ValidPick(w, p, pick) && p in w.rows
    ensures pick.Some? ==>
      var q := pick.value;
      && q != p && q in w.rows && w.rows[q].lib == Synced && w.rows[q].tracked.hash == w.rows[p].tracked.hash
      && q in w.disk && w.disk[q].regular && w.disk[q].mtime == w.rows[q].tracked.mtime
    ensures pick.None? ==> forall q ::
      q != p && q in w.rows && w.rows[q].lib == Synced && w.rows[q].tracked.hash == w.rows[p].tracked.hash ==>
        !(q in w.disk && w.disk[q].regular && w.disk[q].mtime == w.rows[q].tracked.mtime)
  {
    if pick.None? {
      assert forall q :: q in w.rows ==> !Survives(w, p, q);
    }
  }

  /** Only one survivor is asked: where its record has no key, the entry goes although another survivor's record had it. */
  lemma FirstSurvivorOnly(w: World, p: Path, q: Path, r: Path)
    requires Inv(w) && p in w.files && w.files[p].known.Some? && Survives(w, p, q) && Survives(w, p, r)
    requires Keyed(w, w.files[p].known.value.id) && w.files[p].known.value.id in w.provable
    requires !Keyed(w, w.rows[q].tracked.id) && Keyed(w, w.rows[r].tracked.id)
    requires w.records[w.rows[r].tracked.id].key == w.records[w.files[p].known.value.id].key
    ensures !Has(Depart(w, p, Some(q)), w.records[w.rows[r].tracked.id].key.value)
    ensures Has(Depart(w, p, Some(r)), w.records[w.rows[r].tracked.id].key.value)
  {
    DepartureExactly(w, p, Some(q));
    DepartureExactly(w, p, Some(r));
    DepartStep(w, p, Some(q));
  }

  /** The path is left out of the library, under a record. */
  predicate ExcludedUnder(w: World, p: Path) { p in w.files && w.files[p].lib.Excluded? && w.files[p].known.Some? }

  /** An add-back of a path that is not left out, or whose record is not live and not restored, changes nothing. */
  lemma AddBackRefused(w: World, p: Path, granted: bool, pick: Option<Path>, fault: Fault)
    requires ValidPick(w, p, pick)
    requires ExcludedUnder(w, p) ==>
      !Live(w, w.files[p].known.value.id) && (!granted || w.files[p].known.value.id !in w.records)
    ensures AddBack(w, p, granted, pick, fault) == w
  {
  }

  /** An add-back that goes on brings a file with its old bytes back: synced, its record live, its entry answering. */
  lemma AddBackAnswers(w: World, p: Path, granted: bool, pick: Option<Path>)
    requires Inv(w) && Scannable(w, p) && ValidPick(w, p, pick) && ExcludedUnder(w, p)
    requires Live(w, w.files[p].known.value.id) || (Tombstoned(w, w.files[p].known.value.id) && granted)
    requires w.files[p].known.value.hash == w.disk[p].hash
    ensures var id, w1 := w.files[p].known.value.id, AddBack(w, p, granted, pick, NoFault);
      && p in w1.rows && w1.rows[p].lib.Synced? && w1.rows[p].tracked.id == id && Live(w1, id) && Answering(w1, p)
      && w1.records == w.records[id := w.records[id].(deleted := false)]
  {
    assert PathOk(w, p);
    var marked := Unmark(Restore(w, w.files[p].known.value.id), p);
    SameBytesStay(marked, p);
    PresentAnswers(marked, p);
    hide IngestPresent;
  }

  /** An ingest of a synced path's unchanged bytes leaves it synced under its live record. */
  lemma SameBytesStay(w: World, p: Path)
    requires PathOk(w, p) && p in w.disk && p in w.files && w.files[p].known.Some? && w.files[p].lib.Synced?
    requires Live(w, w.files[p].known.value.id) && w.files[p].known.value.hash == w.disk[p].hash
    ensures var id, w1 := w.files[p].known.value.id, IngestPresent(w, p, w.disk[p], NoFault);
      p in w1.rows && w1.rows[p].lib.Synced? && w1.rows[p].tracked.id == id && w1.records == w.records
  {
  }

  // ---- After a scan ----

  /** If the path is synced, it is settled and its key answers. */
  predicate Supplied(w: World, p: Path) {
    Answering(w, p) && (p in w.rows && w.rows[p].lib.Synced? ==> p in w.disk && Settled(w, p))
  }

  /** Ingests of listed files take no entry away. */
  lemma {:induction false} IngestsKeepAnswers(w: World, run: seq<Event>, todo: set<Path>, key: Key)
    requires Inv(w) && Possible(w, run) && IngestsEach(run, todo, NoFaults) && Has(w, key)
    requires forall q :: q in todo ==> q.watch in w.running && Listed(w, q)
    ensures Has(After(w, run), key)
    decreases |run|
  {
    if run != [] {
      var q, pick := run[0].path, run[0].pick;
      PicksOk(w, q, pick);
      IngestMoves(w, q, pick, NoFault);
      IngestStep(w, q, pick, NoFault);
      assert Has(Step(w, run[0]), key);
      IngestsKeepAnswers(Step(w, run[0]), run[1..], todo - {q}, key);
    }
  }

  lemma SuppliedStays(w: World, run: seq<Event>, todo: set<Path>, p: Path)
    requires Inv(w) && Possible(w, run) && IngestsEach(run, todo, NoFaults) && p !in todo && Supplied(w, p)
    requires forall q :: q in todo ==> q.watch in w.running && Listed(w, q)
    ensures Supplied(After(w, run), p)
  {
    var w1 := After(w, run);
    IngestsApart(w, run, todo);
    ApartKeeps(w, w1, todo, p);
    assert SameAt(w, w1, p);
    if p in w.rows && w.rows[p].lib.Synced? && Keyed(w, w.rows[p].tracked.id) {
      IngestsKeepAnswers(w, run, todo, w.records[w.rows[p].tracked.id].key.value);
    }
  }

  lemma IngestSupplies(w: World, p: Path, pick: Option<Path>)
    requires Inv(w) && Scannable(w, p) && ValidPick(w, p, pick)
    ensures Supplied(Ingest(w, p, pick, NoFault), p)
  {
    IngestAnswers(w, p, pick);
    IngestSettlesExactly(w, p, pick);
    hide Settled, Answering, Register, Refresh;
    if StaleExclusion(w, p) {
      assert PathOk(w, p);
      assert Ingest(w, p, pick, NoFault) == SetLibrary(w, p, Excluded);
    }
  }

  /** The ingests of a scan leave every eligible file of theirs supplied. */
  lemma {:induction false} IngestsSupply(w: World, run: seq<Event>, todo: set<Path>, p: Path)
    requires Inv(w) && Possible(w, run) && IngestsEach(run, todo, NoFaults)
    requires forall q :: q in todo ==> q.watch in w.running && Listed(w, q)
    requires p in todo && p in w.disk && Eligible(w.disk[p])
    ensures Supplied(After(w, run), p)
    decreases |run|
  {
    var q, pick := run[0].path, run[0].pick;
    var w1 := Step(w, run[0]);
    IngestApart(w, q, pick);
    IngestStep(w, q, pick, NoFault);
    if q == p {
      IngestSupplies(w, p, pick);
      SuppliedStays(w1, run[1..], todo - {p}, p);
    } else {
      IngestsSupply(w1, run[1..], todo - {q}, p);
    }
  }

  /** Every synced path's record has a key, so any survivor can be linked to. */
  ghost predicate SyncedKeyed(w: World) {
    forall q :: q in w.rows && w.rows[q].lib.Synced? ==> Keyed(w, w.rows[q].tracked.id)
  }

  /** A supplied path with the departing path's key is a survivor. */
  lemma SuppliedSurvives(w: World, q: Path, p: Path)
    requires Inv(w) && q in w.files && w.files[q].known.Some? && p != q && p in w.rows && w.rows[p].lib.Synced?
    requires Supplied(w, p) && p in w.disk && w.disk[p].regular
    requires Keyed(w, w.rows[p].tracked.id) && Keyed(w, w.files[q].known.value.id)
    requires w.records[w.rows[p].tracked.id].key == w.records[w.files[q].known.value.id].key
    ensures Survives(w, q, p)
  {
    assert PathOk(w, q) && PathOk(w, p);
  }

  /** So a departure takes nothing from it. */
  lemma DepartureLeavesSupply(w: World, q: Path, pick: Option<Path>, p: Path)
    requires Inv(w) && SyncedKeyed(w) && q in w.files && ValidPick(w, q, pick) && p != q
    requires Supplied(w, p) && (p in w.disk ==> w.disk[p].regular)
    ensures SyncedKeyed(Depart(w, q, pick)) && Supplied(Depart(w, q, pick), p)
  {
    var w1 := Depart(w, q, pick);
    DepartStep(w, q, pick);
    DepartMoves(w, q, pick);
    DepartKeepsKeyed(w, q, pick);
    assert SameAt(w, w1, p);
    if p in w.rows && w.rows[p].lib.Synced? {
      var key := w.records[w.rows[p].tracked.id].key.value;
      if q in w.files && w.files[q].known.Some? {
        DepartureExactly(w, q, pick);
        if Keyed(w, w.files[q].known.value.id) && w.records[w.files[q].known.value.id].key == Some(key) {
          SuppliedSurvives(w, q, p);
        }
      }
      hide Depart, Inv, ValidPick, Survives, Settled;
      assert key in w1.objects;
    }
  }

  lemma DepartKeepsKeyed(w: World, q: Path, pick: Option<Path>)
    requires Inv(w) && SyncedKeyed(w) && q in w.files && ValidPick(w, q, pick)
    ensures SyncedKeyed(Depart(w, q, pick))
  {
    var w1 := Depart(w, q, pick);
    DepartStep(w, q, pick);
    assert q in w1.rows ==> !w1.rows[q].lib.Synced?;
    hide Depart, Inv, ValidPick, Survives;
    forall p | p in w1.rows && w1.rows[p].lib.Synced? ensures Keyed(w1, w1.rows[p].tracked.id) {
      assert SameAt(w, w1, p);
    }
  }

  lemma {:induction false} ReversesLeaveSupply(w: World, run: seq<Event>, todo: set<Path>, p: Path)
    requires Inv(w) && SyncedKeyed(w) && Possible(w, run) && ReversesEach(run, todo) && p !in todo
    requires Supplied(w, p) && (p in w.disk ==> w.disk[p].regular)
    ensures Supplied(After(w, run), p)
    decreases |run|
  {
    if run != [] {
      var q, pick := run[0].path, run[0].pick;
      DepartureLeavesSupply(w, q, pick, p);
      DepartStep(w, q, pick);
      ReversesLeaveSupply(Step(w, run[0]), run[1..], todo - {q}, p);
    }
  }

  /** After an error-free startup scan, the store answers for the record of every eligible file the watch holds synced. */
  lemma ScanAnswers(w: World, watch: string, ingests: seq<Event>, reverses: seq<Event>, p: Path)
    requires Inv(w) && IsScan(w, watch, ingests, reverses, NoFaults)
    requires SyncedKeyed(After(Load(w, watch), ingests))
    requires p.watch == watch && Scannable(Load(w, watch), p)
    ensures Answering(Scanned(w, watch, ingests, reverses, NoFaults), p)
  {
    var w0 := Load(w, watch);
    var w1 := After(w0, ingests);
    LoadStep(w, watch);
    IngestsApart(w0, ingests, ListedIn(w, watch));
    IngestsSupply(w0, ingests, ListedIn(w, watch), p);
    ReversesLeaveSupply(w1, reverses, UnlistedIn(w1, watch), p);
  }
}
