/**
  `createFileWatchManager` as an object: its stores are fields, its closures are
  methods that update them in the source's order, and each method is proved to be
  the step of WatchModel.dfy that the theorems are about.

  `disk`, `provable` and `granted` are what the file system, the cloud probe and
  the restore planner answer; `fault` is the first operation of an ingest that
  throws. The log lines and the residency rows are left out.
*/
module WatchManager {
  import opened Wrappers
  import opened WatchModel
  import opened WatchInvariant
  import opened WatchScan
  import opened WatchLibrary

  const RECHECK_CHUNK: nat := 200

  datatype AddBackOutcome = Added(id: RecordId) | Refused(status: nat)

  /** A pick that is valid whenever it is asked for; which one is the table's choice. */
  ghost function AnyPick(w: World, p: Path): (pick: Option<Path>)
    ensures ValidPick(w, p, pick)
  {
    if exists q :: Survives(w, p, q) then
      var q :| Survives(w, p, q);
      Some(q)
    else None
  }

  const PENDING_INFO := Info(None, Pending, Synced)

  lemma FailOverPending(w: World, p: Path)
    ensures Fail(w.(files := w.files[p := PENDING_INFO]), p) == Fail(w, p)
  {
  }

  lemma TrackOverPending(w: World, p: Path, t: Tracked, lib: Library)
    ensures Track(w.(files := w.files[p := PENDING_INFO]), p, t, lib) == Track(w, p, t, lib)
  {
  }

  /** The placeholder an ingest leaves while it runs is gone once the ingest ends. */
  lemma PendingIsOverwritten(w: World, p: Path, f: File, fault: Fault)
    ensures Register(w.(files := w.files[p := PENDING_INFO]), p, f, fault) == Register(w, p, f, fault)
  {
    var t, files := TrackedAs(p, f), w.files[p := PENDING_INFO];
    hide PutRecord, PutLink, Ensure;
    if Tombstoned(w, t.id) {
      EndsOverPending(w, p, t, Excluded);
    } else if t.id in w.records {
      EnsureKeepsPending(w, p, t.id, files);
      EndsOverPending(Ensure(w, t.id, p), p, t, Synced);
    } else if fault.AtPut? {
      LinkKeepsPending(w, p, KeyOf(w, t.id), files);
      EndsOverPending(PutLink(w, KeyOf(w, t.id), p), p, t, Synced);
    } else {
      PutKeepsPending(w, p, t.id, files);
      EndsOverPending(PutRecord(w, p, t.id), p, t, Synced);
    }
  }

  lemma EndsOverPending(w: World, p: Path, t: Tracked, lib: Library)
    ensures Fail(w.(files := w.files[p := PENDING_INFO]), p) == Fail(w, p)
    ensures Track(w.(files := w.files[p := PENDING_INFO]), p, t, lib) == Track(w, p, t, lib)
  {
  }

  lemma EnsureKeepsPending(w: World, p: Path, id: RecordId, files: map<Path, Info>)
    ensures Ensure(w.(files := files), id, p) == Ensure(w, id, p).(files := files) && Ensure(w, id, p).files == w.files
  {
  }

  lemma LinkKeepsPending(w: World, p: Path, key: Key, files: map<Path, Info>)
    ensures PutLink(w.(files := files), key, p) == PutLink(w, key, p).(files := files) && PutLink(w, key, p).files == w.files
  {
  }

  lemma PutKeepsPending(w: World, p: Path, id: RecordId, files: map<Path, Info>)
    ensures PutRecord(w.(files := files), p, id) == PutRecord(w, p, id).(files := files) && PutRecord(w, p, id).files == w.files
  {
  }

  /** A path whose state says something about the library's opinion of its record. */
  predicate Recheckable(info: Info) { info.lib.Synced? || info.lib.Excluded? }

  class FileWatchManager {
    const configs: map<string, Config>
    const kindOf: string -> string
    var disk: map<Path, File>
    var provable: set<RecordId>
    var records: map<RecordId, Record>
    var objects: map<Key, Source>
    var rows: map<Path, Row>
    var files: map<Path, Info>
    var running: set<string>
    ghost var proved: set<Hash>

    ghost function State(): World
      reads this
    {
      World(configs, kindOf, running, disk, records, objects, rows, files, provable, proved)
    }

    constructor (configs: map<string, Config>, kindOf: string -> string, disk: map<Path, File>,
                 records: map<RecordId, Record>, objects: map<Key, Source>, rows: map<Path, Row>)
      ensures State() == World(configs, kindOf, {}, disk, records, objects, rows, map[], {}, {})
    {
      this.configs, this.kindOf, this.disk, this.records, this.objects, this.rows :=
        configs, kindOf, disk, records, objects, rows;
      this.provable, this.files, this.running, this.proved := {}, map[], {}, {};
    }

    method EnsureLocalObject(id: RecordId, p: Path) returns (ok: bool)
      modifies this`objects
      ensures State() == Ensure(old(State()), id, p) && ok == Keyed(old(State()), id)
    {
      if id !in records || records[id].deleted || records[id].key.None? { return false; }
      var key := records[id].key.value;
      if key in objects && (objects[key].Blob? || objects[key].target in disk) { return true; }
      objects := objects[key := Link(p)];
      return true;
    }

    method SurvivingPathFor(departed: Path) returns (pick: Option<Path>)
      ensures ValidPick(State(), departed, pick)
    {
      if departed !in rows { return None; }
      var candidates := set q | q in rows && q != departed
        && rows[q].tracked.hash == rows[departed].tracked.hash && rows[q].lib.Synced?;
      while candidates != {}
        invariant candidates <= rows.Keys - {departed}
        invariant forall q :: q in candidates ==>
          rows[q].tracked.hash == rows[departed].tracked.hash && rows[q].lib.Synced?
        invariant forall q :: Survives(State(), departed, q) ==> q in candidates
        decreases candidates
      {
        var q :| q in candidates;
        if q in disk && disk[q].regular && disk[q].mtime == rows[q].tracked.mtime {
          return Some(q);
        }
        candidates := candidates - {q};
      }
      return None;
    }

    method EvictFromDisk(p: Path, id: RecordId) returns (lib: Library, ghost pick: Option<Path>)
      modifies this`objects, this`proved
      ensures ValidPick(old(State()), p, pick)
      ensures State() == Evict(old(State()), p, id, pick).world && lib == Evict(old(State()), p, id, pick).lib
    {
      pick := AnyPick(State(), p);
      if id !in records || records[id].deleted { return Evicted, pick; }
      if records[id].key.None? { return Evicted, pick; }
      var survivor := SurvivingPathFor(p);
      pick := survivor;
      if survivor.Some? {
        var ok := EnsureLocalObject(rows[survivor.value].tracked.id, survivor.value);
        if ok { return Evicted, pick; }
      }
      if id !in provable { return PossiblyLost, pick; }
      objects := objects - {records[id].key.value};
      proved := proved + {id.hash};
      return Evicted, pick;
    }

    method SetLibraryState(p: Path, lib: Library)
      modifies this`rows
      ensures rows == SetRowLibrary(old(rows), p, lib)
    {
      if p in rows { rows := rows[p := rows[p].(lib := lib)]; }
    }

    method UpsertTrackingRecord(p: Path, t: Tracked, lib: Library)
      modifies this`rows
      ensures rows == old(rows)[p := Row(t, lib)]
    {
      rows := rows[p := Row(t, lib)];
    }

    method MarkExcluded(p: Path, info: Info)
      modifies this`rows, this`files
      ensures files == old(files)[p := info.(status := Ready, lib := Excluded)]
      ensures rows == SetRowLibrary(old(rows), p, Excluded)
    {
      files := files[p := info.(status := Ready, lib := Excluded)];
      SetLibraryState(p, Excluded);
    }

    method FailPath(p: Path)
      modifies this`files
      ensures State() == Fail(old(State()), p)
    {
      files := files[p := FAILED_INFO];
    }

    method TrackPath(p: Path, t: Tracked, lib: Library)
      modifies this`rows, this`files
      ensures State() == Track(old(State()), p, t, lib)
    {
      UpsertTrackingRecord(p, t, lib);
      files := files[p := Info(Some(t), Ready, lib)];
    }

    /** The ENOENT branch of an ingest, and one path of the reverse comparison. */
    method DepartPath(p: Path) returns (ghost pick: Option<Path>)
      modifies this`objects, this`proved, this`rows, this`files
      ensures ValidPick(old(State()), p, pick) && State() == Depart(old(State()), p, pick)
      ensures p in old(files) ==> p in files && files == old(files)[p := files[p]]
    {
      pick := AnyPick(State(), p);
      if p !in files { return; }
      var info := files[p];
      var lib := Evicted;
      if info.known.Some? {
        lib, pick := EvictFromDisk(p, info.known.value.id);
      }
      files := files[p := info.(status := Ready, lib := lib)];
      SetLibraryState(p, lib);
    }

    /** The end of an ingest: what these bytes are to the library, and the row that says so. */
    method RegisterFile(p: Path, f: File, fault: Fault)
      modifies this`records, this`objects, this`rows, this`files
      ensures State() == Register(old(State()), p, f, fault)
    {
      var t := TrackedAs(p, f);
      if t.id in records && records[t.id].deleted {
        if fault.AtTrack? { FailPath(p); return; }
        TrackPath(p, t, Excluded);
        return;
      }
      if t.id in records {
        var _ := EnsureLocalObject(t.id, p);
      } else {
        var ok := PutWithLocalFile(t.id, p, fault.AtPut?);
        if !ok { FailPath(p); return; }
      }
      if fault.AtTrack? { FailPath(p); return; }
      TrackPath(p, t, Synced);
    }

    /** The SDK's `putWithLocalFile`: the link first, then the record. */
    method PutWithLocalFile(id: RecordId, p: Path, throws: bool) returns (ok: bool)
      requires id !in records
      modifies this`records, this`objects
      ensures ok == !throws
      ensures State() == if ok then PutRecord(old(State()), p, id) else PutLink(old(State()), KeyOf(old(State()), id), p)
    {
      var key := Key(kindOf(id.name), id.hash);
      if !(key in objects && (objects[key].Blob? || objects[key].target in disk)) {
        objects := objects[key := Link(p)];
      }
      if throws { return false; }
      records := records[id := Record(false, Some(key))];
      ok := true;
    }

    method StartOver(p: Path, f: File, fault: Fault, ghost w: World)
      requires State() == w.(files := w.files[p := PENDING_INFO]) && p in w.files
      modifies this`records, this`objects, this`rows, this`files
      ensures State() == Register(DropTracking(w, p), p, f, fault)
    {
      rows, files := rows - {p}, files - {p};
      assert files == w.files - {p};
      RegisterFile(p, f, fault);
    }

    /** The content has not changed: restore the entry, or start over when its record is not to be had. */
    method RefreshSameBytes(p: Path, f: File, t: Tracked, fault: Fault, ghost w: World)
      requires State() == w.(files := w.files[p := PENDING_INFO]) && p in w.files
      modifies this`records, this`objects, this`rows, this`files
      ensures State() == RestoreEntry(w, p, f, t, fault)
    {
      EnsureKeepsPending(w, p, t.id, w.files[p := PENDING_INFO]);
      var restored := EnsureLocalObject(t.id, p);
      if !restored {
        StartOver(p, f, fault, w);
        return;
      }
      ghost var w1 := Ensure(w, t.id, p);
      if fault.AtTrack? {
        FailPath(p);
        FailOverPending(w1, p);
        return;
      }
      TrackPath(p, t.(mtime := f.mtime), Synced);
      TrackOverPending(w1, p, t.(mtime := f.mtime), Synced);
    }

    /** The bytes of an eligible file, once the guards let an ingest write. */
    method RefreshFile(p: Path, f: File, info: Info, fault: Fault)
      requires p in files && files[p] == info && info.known.Some?
      modifies this`records, this`objects, this`rows, this`files
      ensures State() == Refresh(old(State()), p, f, info, fault)
    {
      var t := info.known.value;
      if info.status.Ready? && info.lib.Synced? && t.mtime == f.mtime {
        var present := EnsureLocalObject(t.id, p);
        if present { return; }
      }
      RewriteFile(p, f, t, fault);
    }

    /** The entry is pending while the file's bytes are taken in. */
    method RewriteFile(p: Path, f: File, t: Tracked, fault: Fault)
      requires p in files
      modifies this`records, this`objects, this`rows, this`files
      ensures State() == if t.hash != f.hash then Register(old(State()), p, f, fault) else RestoreEntry(old(State()), p, f, t, fault)
    {
      ghost var w := State();
      files := files[p := PENDING_INFO];
      assert State() == w.(files := w.files[p := PENDING_INFO]);
      if t.hash == f.hash {
        RefreshSameBytes(p, f, t, fault, w);
      } else {
        RegisterFile(p, f, fault);
        PendingIsOverwritten(w, p, f, fault);
      }
    }

    /** An eligible file: the resurrection guard, then the bytes. */
    method IngestPresentFile(p: Path, f: File, fault: Fault)
      modifies this`records, this`objects, this`rows, this`files
      ensures State() == IngestPresent(old(State()), p, f, fault)
    {
      ghost var w := State();
      if p in files && files[p].known.Some? {
        var existing := files[p];
        var t := existing.known.value;
        if existing.lib.Excluded? {
          if t.mtime == f.mtime { return; }
          if t.hash == f.hash { return; }
        } else if t.id in records && records[t.id].deleted {
          MarkExcluded(p, existing);
          return;
        } else {
          RefreshFile(p, f, existing, fault);
          return;
        }
      }
      files := files[p := PENDING_INFO];
      RegisterFile(p, f, fault);
      PendingIsOverwritten(w, p, f, fault);
    }

    method IngestFile(p: Path, fault: Fault) returns (ghost pick: Option<Path>)
      modifies this`records, this`objects, this`proved, this`rows, this`files
      ensures ValidPick(old(State()), p, pick) && State() == Ingest(old(State()), p, pick, fault)
    {
      pick := AnyPick(State(), p);
      if p.watch !in configs || !Accepts(configs[p.watch], p.name) { return; }
      if fault.AtStat? { FailPath(p); return; }
      if p !in disk {
        pick := DepartPath(p);
        return;
      }
      var f := disk[p];
      if !f.regular { return; }
      if f.size > MAX_FILE_SIZE { return; }
      if f.size == 0 { return; }
      IngestPresentFile(p, f, fault);
    }

    // ---- recheckRecords ----

    function TrackedPathsForRecords(ids: seq<RecordId>): set<Path>
      reads this`rows
    {
      set p | p in rows && rows[p].tracked.id in ids
    }

    /** The mark goes first, so that the ingest that follows may re-link the file. */
    method ClearMark(p: Path)
      requires p in files
      modifies this`rows, this`files
      ensures State() == Unmark(old(State()), p)
    {
      files := files[p := files[p].(lib := Synced)];
      SetLibraryState(p, Synced);
    }

    /** One path's turn on its watch's queue. */
    method RecheckOne(p: Path, fault: Fault) returns (ghost pick: Option<Path>)
      modifies this`records, this`objects, this`proved, this`rows, this`files
      ensures ValidPick(old(State()), p, pick) && State() == RecheckPath(old(State()), p, pick, fault)
    {
      ghost var w := State();
      pick := AnyPick(w, p);
      if p !in files { return; }
      var current := files[p];
      var deleted := current.known.Some?
        && current.known.value.id in records && records[current.known.value.id].deleted;
      if deleted && current.lib.Synced? {
        MarkExcluded(p, current);
      } else if !deleted && current.lib.Excluded? {
        ClearMark(p);
        pick := IngestFile(p, fault);
        SurvivorsIgnoreTheMark(w, p, pick);
      }
    }

    /** Where every path that disagrees has its record among `ids`, each path in memory under a record agrees afterwards. */
    method RecheckRecords(ids: seq<RecordId>, faults: Path -> Fault) returns (ghost run: seq<Event>)
      modifies this`records, this`objects, this`proved, this`rows, this`files
      ensures Possible(old(State()), run) && State() == After(old(State()), run)
      ensures forall e :: e in run ==> e.Rechecked? && e.fault == faults(e.path)
      ensures Inv(old(State())) && (forall p :: !Agrees(old(State()), p) ==> old(State()).rows[p].tracked.id in ids) ==>
        forall p :: Agrees(State(), p) <==> Agrees(old(State()), p) || LoadedAt(old(State()), p)
      ensures forall p | p in old(files) && p in old(rows) && old(rows[p].tracked.id) in ids && Recheckable(old(files[p])) ::
                exists e :: e in run && e.path == p
    {
      var queued: seq<Path> := [];
      var i := 0;
      while i < |ids|
        invariant 0 <= i <= |ids|
        invariant forall p :: p in files && p in rows && rows[p].tracked.id in ids[..i] && Recheckable(files[p]) ==>
                    p in queued
      {
        var end := if i + RECHECK_CHUNK < |ids| then i + RECHECK_CHUNK else |ids|;
        var paths := TrackedPathsForRecords(ids[i..end]);
        assert ids[..end] == ids[..i] + ids[i..end];
        ghost var chunk := paths;
        ghost var before := queued;
        while paths != {}
          invariant paths <= chunk && forall p :: p in before ==> p in queued
          invariant forall p :: p in chunk - paths && p in files && Recheckable(files[p]) ==> p in queued
          decreases paths
        {
          var p :| p in paths;
          paths := paths - {p};
          if p in files && Recheckable(files[p]) { queued := queued + [p]; }
        }
        i := end;
      }
      assert ids[..i] == ids;
      run := [];
      for k := 0 to |queued|
        invariant Possible(old(State()), run) && State() == After(old(State()), run)
        invariant forall e :: e in run ==> e.Rechecked? && e.fault == faults(e.path)
        invariant forall j :: 0 <= j < k ==> exists e :: e in run && e.path == queued[j]
      {
        ghost var w, e := State(), Rechecked(queued[k], None, NoFault);
        ghost var pick := RecheckOne(queued[k], faults(queued[k]));
        e := Rechecked(queued[k], pick, faults(queued[k]));
        OneMore(old(State()), run, e);
        assert e in run + [e] && e.path == queued[k];
        run := run + [e];
      }
      RechecksReach(old(State()), run, ids);
    }

    // ---- startWatch, stopWatch, shutdown ----

    method StartWatch(watch: string, faults: Path -> Fault) returns (ghost ingests: seq<Event>, ghost reverses: seq<Event>)
      modifies this
      ensures watch in old(running) ==> State() == old(State())
      ensures watch !in old(running) ==> IsScan(old(State()), watch, ingests, reverses, faults)
      ensures watch !in old(running) ==> State() == Scanned(old(State()), watch, ingests, reverses, faults)
    {
      if watch in running { return [], []; }
      ghost var start := State();
      running := running + {watch};
      files := Elsewhere(files, watch) + Loaded(rows, watch);
      assert State() == Load(start, watch);
      assert ListedIn(State(), watch) == ListedIn(start, watch);
      ingests := ScanIn(watch, faults);
      reverses := ReverseIn(watch);
    }

    method ScanDirectory(watch: string) returns (listed: set<Path>)
      ensures listed == ListedIn(State(), watch)
    {
      listed := set p | p in disk && p.watch == watch
        && p.watch in configs && Accepts(configs[p.watch], p.name) && disk[p].regular;
    }

    method SyncedButUnlisted(watch: string) returns (gone: set<Path>)
      ensures gone == UnlistedIn(State(), watch)
    {
      var onDisk := ScanDirectory(watch);
      gone := set p | p in files && p.watch == watch && p !in onDisk && files[p].lib.Synced?;
    }

    /** Ingest every listed file. */
    method ScanIn(watch: string, faults: Path -> Fault) returns (ghost run: seq<Event>)
      requires watch in running
      modifies this`records, this`objects, this`proved, this`rows, this`files
      ensures Possible(old(State()), run) && State() == After(old(State()), run)
      ensures IngestsEach(run, ListedIn(old(State()), watch), faults)
    {
      ghost var start := State();
      run := [];
      ghost var done: set<Path> := {};
      var todo := ScanDirectory(watch);
      ghost var all := todo;
      while todo != {}
        invariant InScan(start, State(), run, done, faults)
        invariant done == all - todo && todo <= all
        decreases todo
      {
        var p :| p in todo;
        ghost var w := State();
        ghost var pick := IngestFile(p, faults(p));
        ScanOn(start, w, run, done, p, pick, faults);
        run, done := run + [Ingested(p, pick, faults(p))], done + {p};
        todo := todo - {p};
      }
      assert done == all;
    }

    /** Every synced path the listing lacks has departed. */
    method ReverseIn(watch: string) returns (ghost run: seq<Event>)
      modifies this`objects, this`proved, this`rows, this`files
      ensures Possible(old(State()), run) && State() == After(old(State()), run)
      ensures ReversesEach(run, UnlistedIn(old(State()), watch))
    {
      ghost var start := State();
      run := [];
      ghost var done: set<Path> := {};
      var todo := SyncedButUnlisted(watch);
      ghost var all := todo;
      while todo != {}
        invariant InReverse(start, State(), run, done)
        invariant done == all - todo && todo <= all
        invariant forall p :: p in todo ==> p in files && files[p].lib.Synced?
        decreases todo
      {
        var p :| p in todo;
        ghost var w := State();
        ghost var pick := DepartPath(p);
        ReverseOn(start, w, run, done, p, pick);
        run, done := run + [Reversed(p, pick)], done + {p};
        todo := todo - {p};
      }
      assert done == all;
    }

    method StopWatching(watch: string)
      modifies this`running, this`rows, this`files
      ensures State() == StopWatch(old(State()), watch)
    {
      if watch !in running { return; }
      running := running - {watch};
      files := Elsewhere(files, watch);
      rows := map p | p in rows && p.watch != watch :: rows[p];
    }

    method Shutdown()
      modifies this`running, this`files
      ensures State() == Restart(old(State()))
    {
      running, files := {}, map[];
    }

    // ---- addBack ----

    /** The restore, asked for only when the row is deleted. */
    method RestoreRecord(id: RecordId)
      requires id in records
      modifies this`records
      ensures State() == Restore(old(State()), id)
    {
      if records[id].deleted {
        records := records[id := records[id].(deleted := false)];
      } else {
        assert records[id := records[id].(deleted := false)] == records;
      }
    }

    /** Restore, clear the mark, and let an ingest link the bytes again. */
    method PutBack(p: Path, id: RecordId, fault: Fault) returns (ghost pick: Option<Path>)
      requires p in files && id in records
      modifies this`records, this`objects, this`proved, this`rows, this`files
      ensures ValidPick(old(State()), p, pick)
      ensures State() == Ingest(Unmark(Restore(old(State()), id), p), p, pick, fault)
    {
      ghost var w := State();
      RestoreRecord(id);
      ghost var w0 := State();
      ClearMark(p);
      pick := IngestFile(p, fault);
      SurvivorsIgnoreTheMark(w0, p, pick);
      SurvivorsIgnoreRecords(w, w0, p, pick);
    }

    method AddBackPath(p: Path, granted: bool, fault: Fault) returns (outcome: AddBackOutcome, ghost pick: Option<Path>)
      modifies this`records, this`objects, this`proved, this`rows, this`files
      ensures ValidPick(old(State()), p, pick) && State() == AddBack(old(State()), p, granted, pick, fault)
      ensures outcome.Added? <==> AddBackGoesOn(old(State()), p, granted)
      ensures outcome.Added? ==> outcome.id == old(files[p].known.value.id)
      ensures p !in old(files) ==> outcome == Refused(404)
      ensures p in old(files) && !old(files[p].lib).Excluded? ==> outcome == Refused(409)
    {
      ghost var w := State();
      pick := AnyPick(w, p);
      if p !in files { return Refused(404), pick; }
      var tracked := files[p];
      if !tracked.lib.Excluded? { return Refused(409), pick; }
      if tracked.known.None? { return Refused(404), pick; }
      var id := tracked.known.value.id;
      if id !in records { return Refused(404), pick; }
      if records[id].deleted && !granted { return Refused(409), pick; }
      pick := PutBack(p, id, fault);
      outcome := Added(id);
    }
  }

  /** Clearing a path's own mark changes neither its survivors nor what it departs from. */
  lemma SurvivorsIgnoreTheMark(w: World, p: Path, pick: Option<Path>)
    requires p in w.files && ValidPick(Unmark(w, p), p, pick)
    ensures ValidPick(w, p, pick)
  {
    forall q ensures Survives(Unmark(w, p), p, q) <==> Survives(w, p, q) {}
  }

  lemma SurvivorsIgnoreRecords(w: World, w1: World, p: Path, pick: Option<Path>)
    requires ValidPick(w1, p, pick) && w1.rows == w.rows && w1.disk == w.disk
    ensures ValidPick(w, p, pick)
  {
    forall q ensures Survives(w1, p, q) <==> Survives(w, p, q) {}
  }

  lemma OneMore(w: World, run: seq<Event>, e: Event)
    requires Possible(w, run) && Enabled(After(w, run), e)
    ensures Possible(w, run + [e]) && After(w, run + [e]) == Step(After(w, run), e)
  {
    RunFrom(After(w, run), e, []);
    assert [e] + [] == [e];
    RunsCompose(w, run, [e]);
  }

  ghost predicate InScan(start: World, now: World, run: seq<Event>, done: set<Path>, faults: Path -> Fault) {
    && Possible(start, run) && now == After(start, run) && IngestsEach(run, done, faults)
    && now.running == start.running && now.configs == start.configs && now.disk == start.disk
    && forall p :: p in done ==> p.watch in start.running
  }

  lemma ScanOn(start: World, now: World, run: seq<Event>, done: set<Path>, p: Path, pick: Option<Path>, faults: Path -> Fault)
    requires InScan(start, now, run, done, faults) && p !in done && p.watch in start.running && ValidPick(now, p, pick)
    requires var next := Ingest(now, p, pick, faults(p));
      next.running == now.running && next.configs == now.configs && next.disk == now.disk
    ensures InScan(start, Ingest(now, p, pick, faults(p)), run + [Ingested(p, pick, faults(p))], done + {p}, faults)
  {
    var e := Ingested(p, pick, faults(p));
    OneMore(start, run, e);
    OneMoreIngest(run, done, e, faults);
  }

  lemma RechecksReach(w: World, run: seq<Event>, ids: seq<RecordId>)
    requires Possible(w, run) && forall e :: e in run ==> e.Rechecked?
    requires forall p | p in w.files && p in w.rows && w.rows[p].tracked.id in ids && Recheckable(w.files[p]) ::
               exists e :: e in run && e.path == p
    ensures Inv(w) && (forall p :: !Agrees(w, p) ==> w.rows[p].tracked.id in ids) ==>
      forall p :: Agrees(After(w, run), p) <==> Agrees(w, p) || LoadedAt(w, p)
  {
    if Inv(w) && forall p :: !Agrees(w, p) ==> w.rows[p].tracked.id in ids {
      forall p ensures Agrees(After(w, run), p) <==> Agrees(w, p) || LoadedAt(w, p) {
        assert PathOk(w, p);
        RecheckedAgreeExactly(w, run, p);
      }
    }
  }

  ghost predicate InReverse(start: World, now: World, run: seq<Event>, done: set<Path>) {
    Possible(start, run) && now == After(start, run) && ReversesEach(run, done)
  }

  lemma ReverseOn(start: World, now: World, run: seq<Event>, done: set<Path>, p: Path, pick: Option<Path>)
    requires InReverse(start, now, run, done) && p !in done && ValidPick(now, p, pick)
    requires p in now.files && now.files[p].lib.Synced?
    ensures InReverse(start, Depart(now, p, pick), run + [Reversed(p, pick)], done + {p})
  {
    var e := Reversed(p, pick);
    OneMore(start, run, e);
    OneMoreReverse(run, done, e);
  }

  lemma {:induction false} OneMoreIngest(run: seq<Event>, todo: set<Path>, e: Event, faults: Path -> Fault)
    requires IngestsEach(run, todo, faults) && e.Ingested? && e.fault == faults(e.path) && e.path !in todo
    ensures IngestsEach(run + [e], todo + {e.path}, faults)
    decreases |run|
  {
    if run == [] {
      assert (run + [e])[1..] == [];
      assert {e.path} - {e.path} == {};
    } else {
      OneMoreIngest(run[1..], todo - {run[0].path}, e, faults);
      assert (run + [e])[1..] == run[1..] + [e];
      assert todo + {e.path} - {run[0].path} == todo - {run[0].path} + {e.path};
    }
  }

  lemma {:induction false} OneMoreReverse(run: seq<Event>, todo: set<Path>, e: Event)
    requires ReversesEach(run, todo) && e.Reversed? && e.path !in todo
    ensures ReversesEach(run + [e], todo + {e.path})
    decreases |run|
  {
    if run == [] {
      assert (run + [e])[1..] == [];
      assert {e.path} - {e.path} == {};
    } else {
      OneMoreReverse(run[1..], todo - {run[0].path}, e);
      assert (run + [e])[1..] == run[1..] + [e];
      assert todo + {e.path} - {run[0].path} == todo - {run[0].path} + {e.path};
    }
  }
}
