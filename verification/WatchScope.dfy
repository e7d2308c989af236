/** What a watch takes in, how its files are told apart, and what is left of it when it stops. */
module WatchScope {
  import opened Wrappers
  import opened WatchModel
  import opened WatchInvariant

  /** `*.ext` stands for every name that ends in `.ext`, anything else for itself. */
  ghost predicate Means(pattern: string, name: string) {
    if "*." <= pattern then exists stem :: name == stem + pattern[1..] else name == pattern
  }

  lemma MatchIsMeaning(name: string, pattern: string)
    ensures MatchesOne(name, pattern) <==> Means(pattern, name)
  {
    if MatchesOne(name, pattern) && "*." <= pattern {
      assert name == name[..|name| - |pattern[1..]|] + pattern[1..];
    }
    if Means(pattern, name) && "*." <= pattern {
      var stem :| name == stem + pattern[1..];
    }
  }

  /** A name is taken in exactly if no exclusion stands for it and, where there are inclusions, one of them does. */
  lemma AcceptsExactly(config: Config, name: string)
    ensures Accepts(config, name) <==>
      && name != ".DS_Store" && name != "Thumbs.db" && name != ".gitkeep"
      && (forall p :: p in config.excludes ==> !Means(p, name))
      && (config.includes == [] || exists p :: p in config.includes && Means(p, name))
  {
    var defaults := [".DS_Store", "Thumbs.db", ".gitkeep"];
    forall p | p in defaults ensures !("*." <= p) {
      assert p[0] != "*."[0];
    }
    assert defaults[0] in defaults && defaults[1] in defaults && defaults[2] in defaults;
    forall p ensures MatchesOne(name, p) <==> Means(p, name) {
      MatchIsMeaning(name, p);
    }
    var all := defaults + config.excludes;
    assert forall p :: p in all <==> p in defaults || p in config.excludes;
  }

  /** What the patterns refuse, and a file that is empty, too large or not regular, an ingest leaves alone. */
  lemma RefusedIsLeftAlone(w: World, p: Path, pick: Option<Path>, fault: Fault)
    requires ValidPick(w, p, pick)
    requires p.watch !in w.configs || !Accepts(w.configs[p.watch], p.name)
          || (p in w.disk && (!w.disk[p].regular || w.disk[p].size == 0 || w.disk[p].size > 104857600) && !fault.AtStat?)
    ensures Ingest(w, p, pick, fault) == w
  {
  }

  /** Any other new file becomes a record of its name and content, with the key of its kind and a store entry that answers. */
  lemma NewFileIsTakenIn(w: World, p: Path, pick: Option<Path>)
    requires Inv(w) && p.watch in w.running && p.watch in w.configs && Accepts(w.configs[p.watch], p.name) && ValidPick(w, p, pick)
    requires p in w.disk && w.disk[p].regular && 1 <= w.disk[p].size < 104857601
    requires p !in w.files && RecordId(p.name, w.disk[p].hash) !in w.records
    ensures var f, id, key := w.disk[p], RecordId(p.name, w.disk[p].hash), Key(w.kindOf(p.name), w.disk[p].hash);
      var w1 := Ingest(w, p, pick, NoFault);
      && w1.records == w.records[id := Record(false, Some(key))]
      && w1.rows == w.rows[p := Row(Tracked(f.hash, id, f.mtime), Synced)]
      && w1.files == w.files[p := Info(Some(Tracked(f.hash, id, f.mtime)), Ready, Synced)]
      && key in w1.objects && (w1.objects[key] == if Has(w, key) then w.objects[key] else Link(p))
  {
  }

  /** Two tracked files are one record exactly if they have one name and one content. */
  lemma RecordsAreNamed(w: World, p: Path, q: Path)
    requires Inv(w) && p in w.rows && q in w.rows
    ensures w.rows[p].tracked.id == w.rows[q].tracked.id <==>
      p.name == q.name && w.rows[p].tracked.hash == w.rows[q].tracked.hash
  {
    assert PathOk(w, p) && PathOk(w, q);
  }

  /** A stopped watch is forgotten, row by row and in memory; every other path is as it was. */
  lemma StopForgets(w: World, watch: string, p: Path)
    requires watch in w.running
    ensures var w1 := Step(w, WatchStopped(watch));
      && w1.running == w.running - {watch}
      && (if p.watch == watch then p !in w1.rows && p !in w1.files else SameAt(w, w1, p))
      && w1.records == w.records && w1.objects == w.objects && w1.disk == w.disk && w1.proved == w.proved
  {
  }

  /** So starting it again finds nothing to load, and scans as for the first time. */
  lemma StartsAnew(w: World, watch: string)
    requires Inv(w) && watch in w.running
    ensures var w1 := Step(w, WatchStopped(watch)); var again := Step(w1, WatchLoaded(watch));
      watch !in w1.running && watch in again.running && again.rows == w1.rows && again.files == w1.files
  {
    var w1 := StopWatch(w, watch);
    assert Loaded(w1.rows, watch) == map[];
    assert Elsewhere(w1.files, watch) == w1.files;
  }

  /** A start reads the watch's rows into memory and leaves every other path alone; a watch that runs is not started twice. */
  lemma StartLoads(w: World, watch: string, p: Path)
    ensures var w1 := Step(w, WatchLoaded(watch));
      && w1.rows == w.rows && w1.running == w.running + {watch}
      && (watch in w.running ==> w1 == w)
      && (watch !in w.running && p.watch == watch ==>
            (p in w1.files <==> p in w.rows)
            && (p in w.rows ==> w1.files[p] == Info(Some(w.rows[p].tracked), Ready, w.rows[p].lib)))
      && (p.watch != watch ==> SameAt(w, w1, p))
  {
    if watch in w.running { assert w.running + {watch} == w.running; }
  }

  /** When the process ends, no watch runs and nothing is in memory; table, library and store are as they were. */
  lemma RestartForgetsMemory(w: World)
    ensures var w1 := Step(w, Restarted);
      && w1.running == {} && w1.files == map[] && w1.rows == w.rows
      && w1.records == w.records && w1.objects == w.objects && w1.disk == w.disk && w1.proved == w.proved
  {
  }
}
