/**
  The file watcher's five stores and what each step does to them.

  A `World` holds the disk, the record library with its tombstones, the local
  object store, the `watch_files` table and the in-memory map of the running
  watches. Each function below is one step: `Ingest` for `ingestFile`, `Depart`
  for the ENOENT branch and the startup scan's reverse comparison, `RecheckPath`
  for one path of `recheckRecords`, `AddBack`, `Load` for the table read of
  `startWatch`. The class in WatchManager.dfy is proved to compute them.

  Content hashes are an injective stand-in for the bytes, and a record id is the
  pair the id is derived from.
*/
module WatchModel {
  import opened Wrappers

  type Hash = string

  datatype Path = Path(watch: string, dir: string, name: string)
  datatype RecordId = RecordId(name: string, hash: Hash)
  datatype Key = Key(kind: string, hash: Hash)
  datatype File = File(hash: Hash, mtime: int, size: nat, regular: bool)
  datatype Record = Record(deleted: bool, key: Option<Key>)

  /** An entry of the local object store: a symlink to a watched file, or bytes of its own. */
  datatype Source = Link(target: Path) | Blob

  /** `excluded` is the source's `deleted-from-library`. */
  datatype Library = Synced | Evicted | PossiblyLost | Excluded
  datatype Status = Ready | Pending | Failed

  datatype Tracked = Tracked(hash: Hash, id: RecordId, mtime: int)
  datatype Row = Row(tracked: Tracked, lib: Library)

  /** `known` is None for the blank entry an error or an ingest in flight leaves. */
  datatype Info = Info(known: Option<Tracked>, status: Status, lib: Library)

  datatype Config = Config(includes: seq<string>, excludes: seq<string>)

  datatype World = World(
    configs: map<string, Config>,
    kindOf: string -> string,  // a filename's default category
    running: set<string>,
    disk: map<Path, File>,
    records: map<RecordId, Record>,
    objects: map<Key, Source>,
    rows: map<Path, Row>,
    files: map<Path, Info>,
    provable: set<RecordId>,  // the records whose cloud proof would succeed now
    proved: set<Hash>         // history: the contents a removal was proved for
  )

  const MAX_FILE_SIZE: nat := 100 * 1024 * 1024
  const FAILED_INFO := Info(None, Failed, Synced)

  // ---- Patterns ----

  predicate EndsWith(s: string, suffix: string) {
    |suffix| <= |s| && s[|s| - |suffix|..] == suffix
  }

  predicate MatchesOne(name: string, pattern: string) {
    if "*." <= pattern then EndsWith(name, pattern[1..]) else name == pattern
  }

  predicate Accepts(config: Config, name: string) {
    && (forall p | p in [".DS_Store", "Thumbs.db", ".gitkeep"] + config.excludes :: !MatchesOne(name, p))
    && (config.includes == [] || exists p | p in config.includes :: MatchesOne(name, p))
  }

  predicate Accepted(w: World, p: Path) {
    p.watch in w.configs && Accepts(w.configs[p.watch], p.name)
  }

  // ---- Reading the stores ----

  predicate Live(w: World, id: RecordId) { id in w.records && !w.records[id].deleted }
  predicate Tombstoned(w: World, id: RecordId) { id in w.records && w.records[id].deleted }
  predicate Keyed(w: World, id: RecordId) { Live(w, id) && w.records[id].key.Some? }

  /** Whether the store answers for `key`; a link whose target left the disk does not. */
  predicate Has(w: World, key: Key) {
    key in w.objects && (w.objects[key].Blob? || w.objects[key].target in w.disk)
  }

  predicate Eligible(f: File) { f.regular && 0 < f.size <= MAX_FILE_SIZE }

  /** The record id of a file: parent, filename and content, with no parent. */
  function IdOf(p: Path, hash: Hash): RecordId { RecordId(p.name, hash) }

  function TrackedAs(p: Path, f: File): Tracked { Tracked(f.hash, IdOf(p, f.hash), f.mtime) }

  /** The key a new record gets: its extension's category and its content. */
  function KeyOf(w: World, id: RecordId): Key { Key(w.kindOf(id.name), id.hash) }

  // ---- Writing the stores ----

  function Track(w: World, p: Path, t: Tracked, lib: Library): World {
    w.(rows := w.rows[p := Row(t, lib)], files := w.files[p := Info(Some(t), Ready, lib)])
  }

  function SetRowLibrary(rows: map<Path, Row>, p: Path, lib: Library): map<Path, Row> {
    if p in rows then rows[p := rows[p].(lib := lib)] else rows
  }

  /** One path to a new library state, in memory and in the table. */
  function SetLibrary(w: World, p: Path, lib: Library): World
    requires p in w.files
  {
    w.(files := w.files[p := w.files[p].(status := Ready, lib := lib)],
    rows := SetRowLibrary(w.rows, p, lib))
  }

  function Fail(w: World, p: Path): World { w.(files := w.files[p := FAILED_INFO]) }

  // ---- ensureLocalObject ----

  /** `putSymlink`: an entry that answers stays, a missing or dangling one becomes a link to `p`. */
  function PutLink(w: World, key: Key, p: Path): World {
    if Has(w, key) then w else w.(objects := w.objects[key := Link(p)])
  }

  function Ensure(w: World, id: RecordId, p: Path): World {
    if Keyed(w, id) then PutLink(w, w.records[id].key.value, p) else w
  }

  // ---- evictFromDisk ----

  /** `q` still supplies the bytes `departed` held. */
  predicate Survives(w: World, departed: Path, q: Path) {
    && departed in w.rows && q in w.rows && q != departed
    && w.rows[q].tracked.hash == w.rows[departed].tracked.hash
    && w.rows[q].lib == Synced
    && q in w.disk && w.disk[q].regular && w.disk[q].mtime == w.rows[q].tracked.mtime
  }

  /** The table's row order decides which survivor is found, so any may be. */
  ghost predicate ValidPick(w: World, departed: Path, pick: Option<Path>) {
    if pick.Some? then Survives(w, departed, pick.value)
    else forall q :: !Survives(w, departed, q)
  }

  datatype Verdict = Verdict(world: World, lib: Library)

  function Prove(w: World, id: RecordId): Verdict
    requires Keyed(w, id)
  {
    if id in w.provable
    then Verdict(w.(objects := w.objects - {w.records[id].key.value}, proved := w.proved + {id.hash}), Evicted)
    else Verdict(w, PossiblyLost)
  }

  function Evict(w: World, departed: Path, id: RecordId, pick: Option<Path>): Verdict
    requires pick.Some? ==> Survives(w, departed, pick.value)
  {
    if !Keyed(w, id) then Verdict(w, Evicted)
    else if pick.Some? && Keyed(w, w.rows[pick.value].tracked.id)
    then Verdict(Ensure(w, w.rows[pick.value].tracked.id, pick.value), Evicted)
    else Prove(w, id)
  }

  /** A tracked file left the disk. */
  function Depart(w: World, p: Path, pick: Option<Path>): World
    requires pick.Some? ==> Survives(w, p, pick.value)
  {
    if p !in w.files then w
    else if w.files[p].known.None? then SetLibrary(w, p, Evicted)
    else
      var v := Evict(w, p, w.files[p].known.value.id, pick);
      SetLibrary(v.world, p, v.lib)
  }

  // ---- ingestFile ----

  /** The first operation of an ingest that throws; `AtPut` is the record's write, after its link was made. */
  datatype Fault = NoFault | AtStat | AtPut | AtTrack

  /** `putWithLocalFile`: the link, then the record. */
  function PutRecord(w: World, p: Path, id: RecordId): World {
    PutLink(w, KeyOf(w, id), p).(records := w.records[id := Record(false, Some(KeyOf(w, id)))])
  }

  /** The end of an ingest: the content is new at this path. */
  function Register(w: World, p: Path, f: File, fault: Fault): World {
    var t := TrackedAs(p, f);
    if Tombstoned(w, t.id) then
      if fault.AtTrack? then Fail(w, p) else Track(w, p, t, Excluded)
    else if t.id in w.records then
      if fault.AtTrack? then Fail(Ensure(w, t.id, p), p) else Track(Ensure(w, t.id, p), p, t, Synced)
    else if fault.AtPut? then Fail(PutLink(w, KeyOf(w, t.id), p), p)
    else if fault.AtTrack? then Fail(PutRecord(w, p, t.id), p)
    else Track(PutRecord(w, p, t.id), p, t, Synced)
  }

  function DropTracking(w: World, p: Path): World {
    w.(rows := w.rows - {p}, files := w.files - {p})
  }

  /** An eligible file at a tracked path whose record the library has not deleted. */
  function Refresh(w: World, p: Path, f: File, info: Info, fault: Fault): World
    requires info.known.Some?
  {
    var t := info.known.value;
    if info.status.Ready? && info.lib.Synced? && t.mtime == f.mtime && Keyed(w, t.id) then Ensure(w, t.id, p)
    else if t.hash != f.hash then Register(w, p, f, fault)
    else RestoreEntry(w, p, f, t, fault)
  }

  /** The content has not changed: restore the entry, or start over when its record is not to be had. */
  function RestoreEntry(w: World, p: Path, f: File, t: Tracked, fault: Fault): World {
    if !Keyed(w, t.id) then Register(DropTracking(w, p), p, f, fault)
    else if fault.AtTrack? then Fail(Ensure(w, t.id, p), p)
    else Track(Ensure(w, t.id, p), p, t.(mtime := f.mtime), Synced)
  }

  function IngestPresent(w: World, p: Path, f: File, fault: Fault): World {
    if p !in w.files || w.files[p].known.None? then Register(w, p, f, fault)
    else
      var info := w.files[p];
      var t := info.known.value;
      if info.lib.Excluded? then
        if t.mtime == f.mtime || t.hash == f.hash then w else Register(w, p, f, fault)
      else if Tombstoned(w, t.id) then SetLibrary(w, p, Excluded)
      else Refresh(w, p, f, info, fault)
  }

  function Ingest(w: World, p: Path, pick: Option<Path>, fault: Fault): World
    requires pick.Some? ==> Survives(w, p, pick.value)
  {
    if !Accepted(w, p) then w
    else if fault.AtStat? then Fail(w, p)
    else if p !in w.disk then Depart(w, p, pick)
    else if !Eligible(w.disk[p]) then w
    else IngestPresent(w, p, w.disk[p], fault)
  }

  // ---- recheckRecords, addBack, startWatch ----

  /** One path of a recheck, at its turn on the watch's queue. */
  function RecheckPath(w: World, p: Path, pick: Option<Path>, fault: Fault): World
    requires pick.Some? ==> Survives(w, p, pick.value)
  {
    if p !in w.files then w
    else
      var info := w.files[p];
      var deleted := info.known.Some? && Tombstoned(w, info.known.value.id);
      if deleted && info.lib.Synced? then SetLibrary(w, p, Excluded)
      else if !deleted && info.lib.Excluded? then Ingest(Unmark(w, p), p, pick, fault)
      else w
  }

  /** Clear an exclusion mark, so that the ingest that follows may re-link the file. */
  function Unmark(w: World, p: Path): World
    requires p in w.files
  {
    w.(files := w.files[p := w.files[p].(lib := Synced)], rows := SetRowLibrary(w.rows, p, Synced))
  }

  /** The restore `addBack` asks for; `granted` is the restore planner's answer. */
  function Restore(w: World, id: RecordId): World
    requires id in w.records
  {
    w.(records := w.records[id := w.records[id].(deleted := false)])
  }

  predicate AddBackGoesOn(w: World, p: Path, granted: bool) {
    && p in w.files && w.files[p].lib.Excluded? && w.files[p].known.Some?
    && (Live(w, w.files[p].known.value.id) || (Tombstoned(w, w.files[p].known.value.id) && granted))
  }

  function AddBack(w: World, p: Path, granted: bool, pick: Option<Path>, fault: Fault): World
    requires pick.Some? ==> Survives(w, p, pick.value)
  {
    if !AddBackGoesOn(w, p, granted) then w
    else Ingest(Unmark(Restore(w, w.files[p].known.value.id), p), p, pick, fault)
  }

  function Loaded(rows: map<Path, Row>, watch: string): map<Path, Info> {
    map p | p in rows && p.watch == watch :: Info(Some(rows[p].tracked), Ready, rows[p].lib)
  }

  function Elsewhere(files: map<Path, Info>, watch: string): map<Path, Info> {
    map p | p in files && p.watch != watch :: files[p]
  }

  function Load(w: World, watch: string): World {
    if watch in w.running then w
    else w.(running := w.running + {watch}, files := Elsewhere(w.files, watch) + Loaded(w.rows, watch))
  }

  /** The process ends: the table stays, memory does not. */
  function Restart(w: World): World { w.(running := {}, files := map[]) }

  function StopWatch(w: World, watch: string): World {
    if watch !in w.running then w
    else w.(running := w.running - {watch},
      rows := map p | p in w.rows && p.watch != watch :: w.rows[p],
      files := Elsewhere(w.files, watch))
  }

  // ---- Runs ----

  /** What happens around the watcher, and what the watcher does. */
  datatype Event =
    | FileWritten(path: Path, file: File)
    | FileLeft(path: Path)
    | RecordDeleted(id: RecordId)
    | RecordRestored(id: RecordId)
    | RecordArrived(id: RecordId, record: Record)
    | ProofsChanged(provable: set<RecordId>)
    | ObjectsChanged(objects: map<Key, Source>)
    | Ingested(path: Path, pick: Option<Path>, fault: Fault)
    | Reversed(path: Path, pick: Option<Path>)
    | Rechecked(path: Path, pick: Option<Path>, fault: Fault)
    | AddedBack(path: Path, granted: bool, pick: Option<Path>, fault: Fault)
    | WatchLoaded(watch: string)
    | Restarted
    | WatchStopped(watch: string)

  ghost predicate Enabled(w: World, e: Event) {
    match e
    case RecordDeleted(id) => Live(w, id)
    case RecordRestored(id) => Tombstoned(w, id)
    case RecordArrived(id, record) => id !in w.records && (record.key.Some? ==> record.key.value.hash == id.hash)
    case Ingested(p, pick, _) => p.watch in w.running && ValidPick(w, p, pick)
    case Reversed(p, pick) => p in w.files && w.files[p].lib.Synced? && ValidPick(w, p, pick)
    case Rechecked(p, pick, _) => ValidPick(w, p, pick)
    case AddedBack(p, _, pick, _) => ValidPick(w, p, pick)
    case _ => true
  }

  ghost function Step(w: World, e: Event): World
    requires Enabled(w, e)
  {
    match e
    case FileWritten(p, f) => w.(disk := w.disk[p := f])
    case FileLeft(p) => w.(disk := w.disk - {p})
    case RecordDeleted(id) => w.(records := w.records[id := w.records[id].(deleted := true)])
    case RecordRestored(id) => Restore(w, id)
    case RecordArrived(id, record) => w.(records := w.records[id := record])
    case ProofsChanged(provable) => w.(provable := provable)
    case ObjectsChanged(objects) => w.(objects := objects)
    case Ingested(p, pick, fault) => Ingest(w, p, pick, fault)
    case Reversed(p, pick) => Depart(w, p, pick)
    case Rechecked(p, pick, fault) => RecheckPath(w, p, pick, fault)
    case AddedBack(p, granted, pick, fault) => AddBack(w, p, granted, pick, fault)
    case WatchLoaded(watch) => Load(w, watch)
    case Restarted => Restart(w)
    case WatchStopped(watch) => StopWatch(w, watch)
  }

  ghost predicate Possible(w: World, run: seq<Event>)
    decreases |run|
  {
    run == [] || (Enabled(w, run[0]) && Possible(Step(w, run[0]), run[1..]))
  }

  ghost function After(w: World, run: seq<Event>): World
    requires Possible(w, run)
    decreases |run|
  {
    if run == [] then w else After(Step(w, run[0]), run[1..])
  }

  /** Runs compose, so a property of every step is a property of every run. */
  lemma {:induction false} RunsCompose(w: World, run: seq<Event>, rest: seq<Event>)
    requires Possible(w, run) && Possible(After(w, run), rest)
    ensures Possible(w, run + rest) && After(w, run + rest) == After(After(w, run), rest)
    decreases |run|
  {
    if run == [] {
      assert run + rest == rest;
    } else {
      assert (run + rest)[1..] == run[1..] + rest;
      RunsCompose(Step(w, run[0]), run[1..], rest);
    }
  }

  /** A run of one more step first. */
  lemma RunFrom(w: World, e: Event, rest: seq<Event>)
    requires Enabled(w, e) && Possible(Step(w, e), rest)
    ensures Possible(w, [e] + rest) && After(w, [e] + rest) == After(Step(w, e), rest)
  {
  }
}
