/** The cutover to the per-user layout: folders first, then every stored key at once, runnable again from any point. */
module Cutover {
  import opened Wrappers
  import opened FileTree
  import opened Merge
  import opened MergeDir
  import opened Keys
  import opened Binding
  import opened Library

  // ---- One directory ----

  /** `n` is one of the entries to move under `local`; the app folders are listed through `existsSync`. */
  predicate Wanted(kids: map<Name, Node>, want: set<Name>, follow: bool, n: Name) {
    n in kids && n in want && (follow ==> Exists(Some(kids[n])))
  }

  function LocalKids(kids: map<Name, Node>): map<Name, Node> { Kids(Kid(kids, LOCAL)) }

  /** `local` can be made or is a directory, and nothing stands at the entry's new place. */
  predicate Fits(kids: map<Name, Node>, n: Name)
    requires n in kids
  {
    && (LOCAL in kids ==> kids[LOCAL].Dir?)
    && !Exists(Kid(LocalKids(kids), n))
    && (n in LocalKids(kids) ==> kids[n].Leaf?)
  }

  function Moving(kids: map<Name, Node>, want: set<Name>, follow: bool): set<Name> {
    set n | n in kids && Wanted(kids, want, follow, n) && Fits(kids, n)
  }

  function CutIn(d: Node, want: set<Name>, follow: bool): Node {
    if d.Leaf? || Moving(d.kids, want, follow) == {} then d
    else Dir(MovedAll(d.kids, Moving(d.kids, want, follow)))
  }

  function MovedAll(kids: map<Name, Node>, moving: set<Name>): map<Name, Node>
    requires moving <= kids.Keys
  {
    (kids - moving)[LOCAL := Dir(LocalKids(kids) + map n | n in moving :: kids[n])]
  }

  /** The entry is there, asked for, and not a dangling link where links are followed; and its new place is free. */
  ghost predicate GoesUnderLocal(d: Node, want: set<Name>, follow: bool, n: Name) {
    && d.Dir? && n in d.kids && n in want && (follow && d.kids[n].Leaf? ==> d.kids[n].resolves)
    && ("local" in d.kids ==> d.kids["local"].Dir?)
    && match Get(d, ["local", n])
       case None => true
       case Some(Leaf(_, resolves)) => !resolves && d.kids[n].Leaf?
       case Some(Dir(_)) => false
  }

  lemma UnderLocal(d: Node, n: Name)
    ensures Get(d, ["local", n]) == if d.Dir? then Kid(LocalKids(d.kids), n) else None
  {
    assert ["local", n][1..] == [n] && [n][1..] == [];
    if d.Dir? && "local" in d.kids && d.kids["local"].Dir? && n in d.kids["local"].kids {
      assert Get(d.kids["local"], [n]) == Get(d.kids["local"].kids[n], []);
    }
  }

  lemma UnderName(d: Node, n: Name)
    ensures Get(d, [n]) == if d.Dir? then Kid(d.kids, n) else None
  {
    if d.Dir? && n in d.kids { assert Get(d.kids[n], [n][1..]) == Some(d.kids[n]); }
  }

  /** Name by name: an entry that goes under `local` is there afterwards and no longer here; every other stays where it is. */
  lemma CutInByName(d: Node, want: set<Name>, follow: bool, n: Name)
    requires LOCAL !in want
    ensures var d1 := CutIn(d, want, follow);
            if GoesUnderLocal(d, want, follow, n)
            then Get(d1, [n]) == None && Get(d1, ["local", n]) == Get(d, [n])
            else Get(d1, ["local", n]) == Get(d, ["local", n]) && (n != "local" ==> Get(d1, [n]) == Get(d, [n]))
  {
    var d1 := CutIn(d, want, follow);
    UnderLocal(d, n);
    UnderLocal(d1, n);
    UnderName(d, n);
    UnderName(d1, n);
    if d.Dir? { assert GoesUnderLocal(d, want, follow, n) <==> n in Moving(d.kids, want, follow); }
  }

  ghost predicate CutClash(d: Node, want: set<Name>, follow: bool) {
    d.Dir? && exists n :: Wanted(d.kids, want, follow, n) && !Fits(d.kids, n)
  }

  ghost predicate CutUnderWay(was: Node, now: Node, want: set<Name>, follow: bool) {
    && was.Dir? && now.Dir? && CutIn(now, want, follow) == CutIn(was, want, follow)
    && (CutClash(now, want, follow) <==> CutClash(was, want, follow))
  }

  function Made(kids: map<Name, Node>): map<Name, Node> { if LOCAL in kids then kids else kids[LOCAL := Dir(map[])] }

  function MovedOne(kids: map<Name, Node>, n: Name): map<Name, Node>
    requires n in kids
  {
    (kids - {n})[LOCAL := Dir(LocalKids(kids)[n := kids[n]])]
  }

  lemma MakingLocal(kids: map<Name, Node>, want: set<Name>, follow: bool, n: Name)
    requires LOCAL !in want && n in Moving(kids, want, follow)
    ensures CutUnderWay(Dir(kids), Dir(Made(kids)), want, follow)
    ensures n in Moving(Made(kids), want, follow)
  {
    var made := Made(kids);
    assert LocalKids(made) == LocalKids(kids);
    forall m ensures Wanted(made, want, follow, m) <==> Wanted(kids, want, follow, m)
             ensures Wanted(kids, want, follow, m) ==> (Fits(made, m) <==> Fits(kids, m)) {
    }
    assert Moving(made, want, follow) == Moving(kids, want, follow);
    MovedAllFromMade(kids, Moving(kids, want, follow));
  }

  lemma MovedAllFromMade(kids: map<Name, Node>, moving: set<Name>)
    requires moving <= kids.Keys && LOCAL !in moving
    ensures MovedAll(Made(kids), moving) == MovedAll(kids, moving)
  {
    var made := Made(kids);
    assert LocalKids(made) == LocalKids(kids);
    var moved, moved2 := map m | m in moving :: kids[m], map m | m in moving :: made[m];
    assert moved == moved2;
    SameKids(MovedAll(made, moving), MovedAll(kids, moving));
  }

  lemma MovedAllButOne(kids: map<Name, Node>, moving: set<Name>, n: Name)
    requires moving <= kids.Keys && LOCAL !in moving && n in moving && LOCAL in kids && kids[LOCAL].Dir?
    ensures moving - {n} <= MovedOne(kids, n).Keys
    ensures MovedAll(MovedOne(kids, n), moving - {n}) == MovedAll(kids, moving)
  {
    var after := MovedOne(kids, n);
    var lk := LocalKids(kids);
    assert LocalKids(after) == lk[n := kids[n]];
    var a, b := MovedAll(after, moving - {n}), MovedAll(kids, moving);
    forall m ensures Kid(Kids(Kid(a, LOCAL)), m) == Kid(Kids(Kid(b, LOCAL)), m) {
    }
    SameKids(Kids(Kid(a, LOCAL)), Kids(Kid(b, LOCAL)));
    forall m ensures Kid(a, m) == Kid(b, m) {
    }
    SameKids(a, b);
  }

  lemma NothingLeft(kids: map<Name, Node>)
    requires LOCAL in kids && kids[LOCAL].Dir?
    ensures MovedAll(kids, {}) == kids
  {
    var all := MovedAll(kids, {});
    forall m ensures Kid(LocalKids(all), m) == Kid(LocalKids(kids), m) {
    }
    SameKids(LocalKids(all), LocalKids(kids));
    SameKids(all, kids);
  }

  lemma MovingOne(kids: map<Name, Node>, want: set<Name>, follow: bool, n: Name)
    requires LOCAL !in want && LOCAL in kids && n in Moving(kids, want, follow)
    ensures CutUnderWay(Dir(kids), Dir(MovedOne(kids, n)), want, follow)
    ensures Moving(MovedOne(kids, n), want, follow) == Moving(kids, want, follow) - {n}
  {
    var after := MovedOne(kids, n);
    OthersAsBefore(kids, want, follow, n);
    var moving := Moving(kids, want, follow);
    assert Moving(after, want, follow) == moving - {n};
    MovedAllButOne(kids, moving, n);
    if moving == {n} { NothingLeft(after); }
    if CutClash(Dir(kids), want, follow) {
      var m :| Wanted(kids, want, follow, m) && !Fits(kids, m);
      assert Wanted(after, want, follow, m) && !Fits(after, m);
    }
  }

  lemma OthersAsBefore(kids: map<Name, Node>, want: set<Name>, follow: bool, n: Name)
    requires LOCAL !in want && LOCAL in kids && kids[LOCAL].Dir? && n in kids && n in want
    ensures var after := MovedOne(kids, n);
            && (forall m :: Wanted(after, want, follow, m) <==> m != n && Wanted(kids, want, follow, m))
            && (forall m :: m != n && Wanted(kids, want, follow, m) ==> (Fits(after, m) <==> Fits(kids, m)))
  {
  }

  // ---- The whole folder ----

  const APP_FOLDERS: set<Name> := {SYNCABLE}

  function CutApps(apps: Node): Node {
    if apps.Leaf? then apps else Dir(map a | a in apps.kids :: CutIn(apps.kids[a], APP_FOLDERS, true))
  }

  function Cut(root: Node): Node
    requires root.Dir?
  {
    Dir(map n | n in root.kids ::
      if n == SHARED then CutIn(root.kids[n], CATEGORIES, false) else if n == APPS then CutApps(root.kids[n]) else root.kids[n])
  }

  /** No folder but the shared one and the apps' is touched, and no name comes or goes among the library's own. */
  lemma CutTouches(root: Node, n: Name)
    requires root.Dir?
    ensures Cut(root).kids.Keys == root.kids.Keys
    ensures n in root.kids && n != "shared" && n != "apps" ==> Cut(root).kids[n] == root.kids[n]
  {
  }

  /** `rmSync` of the retired records' folder. */
  function Retire(root: Node): Node {
    if CanPut(root, [SHARED, LOCAL, RETIRED]) then Put(root, [SHARED, LOCAL, RETIRED], None) else root
  }

  /** Nothing of the retired records is left, and nothing else is touched. */
  lemma RetireRemovesOnlyThat(root: Node, q: Path)
    ensures Get(Retire(root), [SHARED, LOCAL, RETIRED]) == None
    ensures Apart([SHARED, LOCAL, RETIRED], q) ==> Get(Retire(root), q) == Get(root, q)
  {
    var p := [SHARED, LOCAL, RETIRED];
    if CanPut(root, p) {
      GetPutSame(root, p, None);
      if Apart(p, q) { GetPutApart(root, p, None, q); }
    } else {
      NoParentNoNode(root, p);
    }
  }

  lemma {:induction false} NoParentNoNode(root: Node, p: Path)
    requires p != [] && !CanPut(root, p)
    ensures Get(root, p) == None
    decreases |p|
  {
    if |p| > 1 && root.Dir? && p[0] in root.kids { NoParentNoNode(root.kids[p[0]], p[1..]); }
  }

  function CutKeys(keys: map<nat, Key>, retired: set<nat>): map<nat, Key> {
    map r | r in keys && r !in retired :: ToLocal(keys[r])
  }

  /** Nothing the file system or the script's own checks would refuse. */
  ghost predicate Cuttable(root: Node) {
    && root.Dir?
    && (SHARED in root.kids ==>
          (root.kids[SHARED].Leaf? ==> !root.kids[SHARED].resolves) && !CutClash(root.kids[SHARED], CATEGORIES, false))
    && (APPS in root.kids ==>
          && (root.kids[APPS].Leaf? ==> !root.kids[APPS].resolves)
          && (root.kids[APPS].Dir? ==>
                forall a :: a in root.kids[APPS].kids ==> !CutClash(root.kids[APPS].kids[a], APP_FOLDERS, true)))
  }

  /** The entry is asked for and there, but its place under `local` is taken. */
  ghost predicate StandsInTheWay(root: Node, p: Path, want: set<Name>, follow: bool, n: Name) {
    && Get(root, p).Some? && Get(root, p).value.Dir? && n in Get(root, p).value.kids && n in want
    && (follow ==> Exists(Get(root, p + [n]))) && !GoesUnderLocal(Get(root, p).value, want, follow, n)
  }

  lemma ClashByName(root: Node, p: Path, want: set<Name>, follow: bool)
    requires Get(root, p).Some?
    ensures CutClash(Get(root, p).value, want, follow) <==> exists n :: StandsInTheWay(root, p, want, follow, n)
  {
    var d := Get(root, p).value;
    forall n ensures Get(root, p + [n]) == if d.Dir? then Kid(d.kids, n) else None {
      GetAppend(root, p, [n]);
      UnderName(d, n);
    }
    forall n ensures StandsInTheWay(root, p, want, follow, n) <==>
      d.Dir? && Wanted(d.kids, want, follow, n) && !Fits(d.kids, n)
    {
      UnderLocal(d, n);
    }
  }

  /** Nothing stands in the way: no file in place of the two folders, and no entry whose new place is taken. */
  lemma CuttableExactly(root: Node)
    requires root.Dir?
    ensures Cuttable(root) <==>
      && !Resolve(root, ["shared"]).Some? && !Resolve(root, ["apps"]).Some?
      && (forall n :: !StandsInTheWay(root, ["shared"], CATEGORIES, false, n))
      && (forall a, n :: !StandsInTheWay(root, ["apps", a], {"syncable"}, true, n))
  {
    UnderName(root, "shared");
    UnderName(root, "apps");
    if SHARED in root.kids { ClashByName(root, ["shared"], CATEGORIES, false); }
    if APPS in root.kids && root.kids[APPS].Dir? {
      forall a | a in root.kids[APPS].kids
        ensures Get(root, ["apps", a]) == Some(root.kids[APPS].kids[a])
        ensures CutClash(root.kids[APPS].kids[a], APP_FOLDERS, true) <==>
          exists n :: StandsInTheWay(root, ["apps", a], {"syncable"}, true, n)
      {
        AppPath(root, a);
        ClashByName(root, ["apps", a], APP_FOLDERS, true);
      }
      forall a | a !in root.kids[APPS].kids ensures Get(root, ["apps", a]) == None {
        assert ["apps", a][1..] == [a];
      }
    } else {
      forall a ensures Get(root, ["apps", a]) == None {
        assert ["apps", a][1..] == [a];
      }
    }
  }

  ghost predicate CutFolderUnderWay(was: Node, now: Node) {
    was.Dir? && now.Dir? && Cut(now) == Cut(was) && (Cuttable(was) <==> Cuttable(now))
  }

  lemma CutSharedStep(was: Node, d: Node)
    requires was.Dir? && SHARED in was.kids && CutUnderWay(was.kids[SHARED], d, CATEGORIES, false)
    ensures Put(was, [SHARED], Some(d)) == Dir(was.kids[SHARED := d])
    ensures CutFolderUnderWay(was, Dir(was.kids[SHARED := d]))
  {
    Words();
    assert Cut(Dir(was.kids[SHARED := d])).kids == Cut(was).kids;
  }

  lemma CutAppStep(was: Node, a: Name, d: Node)
    requires was.Dir? && APPS in was.kids && was.kids[APPS].Dir? && a in was.kids[APPS].kids
    requires CutUnderWay(was.kids[APPS].kids[a], d, APP_FOLDERS, true)
    ensures var apps := Dir(was.kids[APPS].kids[a := d]);
            && Put(was, [APPS, a], Some(d)) == Dir(was.kids[APPS := apps])
            && CutFolderUnderWay(was, Dir(was.kids[APPS := apps]))
  {
    Words();
    var ak := was.kids[APPS].kids;
    var apps := Dir(ak[a := d]);
    var now := Dir(was.kids[APPS := apps]);
    assert CutApps(apps).kids == CutApps(was.kids[APPS]).kids;
    assert Cut(now).kids == Cut(was).kids;
    assert Put(was, [APPS, a], Some(d)) == Dir(was.kids[APPS := Put(was.kids[APPS], [a], Some(d))]);
    AppsAlike(ak, ak[a := d]);
  }

  lemma AppsAlike(ak: map<Name, Node>, bk: map<Name, Node>)
    requires ak.Keys == bk.Keys
    requires forall a :: a in ak ==> (CutClash(ak[a], APP_FOLDERS, true) <==> CutClash(bk[a], APP_FOLDERS, true))
    ensures (forall a :: a in ak ==> !CutClash(ak[a], APP_FOLDERS, true)) <==> (forall a :: a in bk ==> !CutClash(bk[a], APP_FOLDERS, true))
  {
  }

  // ---- The script ----

  datatype CutOutcome = Applied | Failed | Interrupted

  /** One rename of the script, from a directory to the same name under its `local`. */
  method MoveOne(disk: Disk, base: Path, want: set<Name>, follow: bool, n: Name) returns (outcome: CutOutcome)
    requires CanPut(disk.root, base) && NodeAt(disk.root, base).Dir? && LOCAL !in want
    requires Wanted(NodeAt(disk.root, base).kids, want, follow, n)
    modifies disk
    ensures CanPut(disk.root, base)
    ensures CutUnderWay(old(NodeAt(disk.root, base)), NodeAt(disk.root, base), want, follow)
    ensures disk.root == Put(old(disk.root), base, Some(NodeAt(disk.root, base)))
    ensures var kids := old(NodeAt(disk.root, base)).kids;
            && (outcome.Applied? ==> Fits(kids, n) && NodeAt(disk.root, base).kids == MovedOne(Made(kids), n))
            && (outcome.Failed? ==> !Fits(kids, n))
    ensures old(disk.budget).None? ==> disk.budget.None? && !outcome.Interrupted?
  {
    ghost var was := disk.root;
    ghost var kids := NodeAt(was, base).kids;
    PutGet(was, base);
    PutBelow(was, base, LOCAL, Some(Dir(map[])));
    if LOCAL !in NodeAt(disk.root, base).kids {
      var go := disk.Step();
      if !go { return Interrupted; }
      disk.root := Put(disk.root, base + [LOCAL], Some(Dir(map[])));
      GetPutSame(was, base, Some(Dir(Made(kids))));
      PutPut(was, base, Some(Dir(Made(kids))), None);
      MakingLocal(kids, want, follow, n);
    } else if NodeAt(disk.root, base).kids[LOCAL].Leaf? {
      return Failed;
    }
    ghost var made := disk.root;
    PathsIn(made, base, n);
    if Exists(Get(disk.root, base + [LOCAL] + [n])) { return Failed; }
    var go := disk.Step();
    if !go { return Interrupted; }
    var ok := disk.Rename(base + [n], base + [LOCAL] + [n]);
    if !ok { return Failed; }
    ghost var after := Dir(MovedOne(Made(kids), n));
    MakingLocal(kids, want, follow, n);
    MovingOne(Made(kids), want, follow, n);
    PutPut(was, base, Some(Dir(Made(kids))), Some(after));
    GetPutSame(was, base, Some(after));
    PutPut(was, base, Some(after), None);
    outcome := Applied;
  }

  /** The two paths of the rename, once `local` is a directory. */
  lemma PathsIn(root: Node, base: Path, n: Name)
    requires CanPut(root, base) && NodeAt(root, base).Dir? && n != LOCAL
    requires var kids := NodeAt(root, base).kids; n in kids && LOCAL in kids && kids[LOCAL].Dir?
    ensures var kids := NodeAt(root, base).kids;
            && CanPut2(root, base + [n], base + [LOCAL] + [n])
            && Get(root, base + [n]) == Some(kids[n])
            && Get(root, base + [LOCAL] + [n]) == Kid(kids[LOCAL].kids, n)
            && Put2(root, base + [n], None, base + [LOCAL] + [n], Some(kids[n]))
               == Put(root, base, Some(Dir(MovedOne(kids, n))))
  {
    var kids := NodeAt(root, base).kids;
    var moved := Dir(kids[LOCAL].kids[n := kids[n]]);
    SiblingsApart(base, n, LOCAL);
    BelowApart(base + [n], base + [LOCAL], [], [n]);
    assert base + [n] + [] == base + [n];
    PutSiblings(root, base, n, None, LOCAL, Some(moved));
    PutBelow(root, base, LOCAL, None);
    PutBelow(root, base + [LOCAL], n, None);
    var r := Put(root, base + [n], None);
    GetPutApart(root, base + [n], None, base + [LOCAL]);
    PutBelow(r, base + [LOCAL], n, Some(kids[n]));
  }

  /** The loop over one directory's entries to move. */
  method MoveWanted(disk: Disk, base: Path, want: set<Name>, follow: bool) returns (outcome: CutOutcome)
    requires CanPut(disk.root, base) && NodeAt(disk.root, base).Dir? && LOCAL !in want
    modifies disk
    ensures CanPut(disk.root, base)
    ensures CutUnderWay(old(NodeAt(disk.root, base)), NodeAt(disk.root, base), want, follow)
    ensures disk.root == Put(old(disk.root), base, Some(NodeAt(disk.root, base)))
    ensures outcome.Applied? ==> NodeAt(disk.root, base) == old(CutIn(NodeAt(disk.root, base), want, follow))
    ensures outcome.Applied? ==> !CutClash(old(NodeAt(disk.root, base)), want, follow)
    ensures outcome.Failed? ==> CutClash(old(NodeAt(disk.root, base)), want, follow)
    ensures old(disk.budget).None? ==> disk.budget.None? && !outcome.Interrupted?
  {
    ghost var was := disk.root;
    ghost var d0 := NodeAt(was, base);
    PutGet(was, base);
    var todo := set n | n in NodeAt(disk.root, base).kids && Wanted(NodeAt(disk.root, base).kids, want, follow, n);
    while todo != {}
      invariant CanPut(disk.root, base) && CutUnderWay(d0, NodeAt(disk.root, base), want, follow)
      invariant disk.root == Put(was, base, Some(NodeAt(disk.root, base)))
      invariant forall n :: n in todo <==> Wanted(NodeAt(disk.root, base).kids, want, follow, n)
      invariant old(disk.budget).None? ==> disk.budget.None?
      decreases todo
    {
      var n :| n in todo;
      ghost var d := NodeAt(disk.root, base);
      outcome := MoveOne(disk, base, want, follow, n);
      PutPut(was, base, Some(d), Some(NodeAt(disk.root, base)));
      if !outcome.Applied? { return; }
      MakingLocal(d.kids, want, follow, n);
      OthersAsBefore(Made(d.kids), want, follow, n);
      MadeWants(d.kids, want, follow);
      todo := todo - {n};
    }
    outcome := Applied;
    assert Moving(NodeAt(disk.root, base).kids, want, follow) == {};
  }

  lemma MadeWants(kids: map<Name, Node>, want: set<Name>, follow: bool)
    requires LOCAL !in want
    ensures forall n :: Wanted(Made(kids), want, follow, n) <==> Wanted(kids, want, follow, n)
  {
  }

  method MoveApps(disk: Disk) returns (outcome: CutOutcome)
    requires disk.root.Dir? && APPS in disk.root.kids && disk.root.kids[APPS].Dir?
    modifies disk
    ensures CutFolderUnderWay(old(disk.root), disk.root)
    ensures outcome.Applied? ==> disk.root == old(Dir(disk.root.kids[APPS := CutApps(disk.root.kids[APPS])]))
    ensures outcome.Applied? ==>
      forall a :: a in old(disk.root).kids[APPS].kids ==> !CutClash(old(disk.root).kids[APPS].kids[a], APP_FOLDERS, true)
    ensures outcome.Failed? ==>
      exists a :: a in old(disk.root).kids[APPS].kids && CutClash(old(disk.root).kids[APPS].kids[a], APP_FOLDERS, true)
    ensures old(disk.budget).None? ==> disk.budget.None? && !outcome.Interrupted?
  {
    ghost var was := disk.root;
    ghost var apps0 := was.kids[APPS].kids;
    ghost var apps := apps0;
    Words();
    assert was.kids[APPS := Dir(apps0)] == was.kids;
    outcome := Applied;
    var todo := disk.root.kids[APPS].kids.Keys;
    while todo != {}
      invariant todo <= apps0.Keys && apps.Keys == apps0.Keys
      invariant disk.root == Dir(was.kids[APPS := Dir(apps)]) && CutFolderUnderWay(was, disk.root)
      invariant forall a :: a in apps0 ==> apps[a] == if a in todo then apps0[a] else CutIn(apps0[a], APP_FOLDERS, true)
      invariant forall a :: a in apps0.Keys - todo ==> !CutClash(apps0[a], APP_FOLDERS, true)
      invariant old(disk.budget).None? ==> disk.budget.None?
      invariant outcome.Applied?
      decreases todo
    {
      var a :| a in todo;
      if disk.root.kids[APPS].kids[a].Dir? {
        ghost var before := disk.root;
        AppPath(before, a);
        outcome := MoveWanted(disk, [APPS, a], APP_FOLDERS, true);
        ghost var d := NodeAt(disk.root, [APPS, a]);
        CutAppStep(before, a, d);
        assert was.kids[APPS := Dir(apps)][APPS := Dir(apps[a := d])] == was.kids[APPS := Dir(apps[a := d])];
        if !outcome.Applied? { return; }
        apps := apps[a := d];
      }
      todo := todo - {a};
    }
    assert CutApps(was.kids[APPS]).kids == apps;
  }

  /** The folder half of the script. */
  method MoveFolders(disk: Disk) returns (outcome: CutOutcome)
    requires disk.root.Dir?
    modifies disk
    ensures CutFolderUnderWay(old(disk.root), disk.root)
    ensures outcome.Applied? ==> disk.root == Cut(old(disk.root)) && Cuttable(old(disk.root))
    ensures outcome.Failed? ==> !Cuttable(old(disk.root))
    ensures old(disk.budget).None? ==> disk.budget.None? && !outcome.Interrupted?
  {
    ghost var was := disk.root;
    Words();
    // Both folders are listed before anything moves.
    if SHARED in disk.root.kids && Exists(Some(disk.root.kids[SHARED])) && disk.root.kids[SHARED].Leaf? { return Failed; }
    if APPS in disk.root.kids && Exists(Some(disk.root.kids[APPS])) && disk.root.kids[APPS].Leaf? { return Failed; }
    if SHARED in disk.root.kids && disk.root.kids[SHARED].Dir? {
      SharedPath(was);
      outcome := MoveWanted(disk, [SHARED], CATEGORIES, false);
      ghost var d := NodeAt(disk.root, [SHARED]);
      CutSharedStep(was, d);
      if !outcome.Applied? { return; }
    }
    ghost var mid := disk.root;
    assert mid.kids.Keys == was.kids.Keys && forall n :: n in mid.kids && n != SHARED ==> mid.kids[n] == was.kids[n];
    if APPS in disk.root.kids && disk.root.kids[APPS].Dir? {
      outcome := MoveApps(disk);
      if !outcome.Applied? { return; }
    }
    outcome := Applied;
    assert Cut(was).kids == disk.root.kids;
  }

  ghost predicate CutApplied(was: Snapshot, now: Snapshot, retired: set<nat>) {
    && was.root.Dir? && Cuttable(was.root)
    && now == Snapshot(Retire(Cut(was.root)), CutKeys(was.keys, retired), was.owner)
  }

  /**
   * One run, stopped anywhere: keys change once every folder has moved, and the retired records' folder goes once they
   * have changed.
   */
  ghost predicate CutPass(was: Snapshot, now: Snapshot, retired: set<nat>) {
    && was.root.Dir? && CutKeys(now.keys, retired) == CutKeys(was.keys, retired) && now.owner == was.owner
    && (|| (CutFolderUnderWay(was.root, now.root) && now.keys == was.keys)
        || (Cuttable(was.root) && now.keys == CutKeys(was.keys, retired)
            && ((now.root == Cut(was.root) && CutFolderUnderWay(was.root, now.root)) || now.root == Retire(Cut(was.root)))))
  }

  /**
   * The whole run: folders, then keys and retired rows in one transaction, then the retired records' folder. Stopped at
   * any step, it leaves a library that a new run takes to the same end.
   */
  method Run(lib: Library, retired: set<nat>) returns (outcome: CutOutcome)
    requires lib.disk.root.Dir?
    modifies lib, lib.disk
    ensures CutPass(old(lib.Now()), lib.Now(), retired)
    ensures outcome.Applied? ==> CutApplied(old(lib.Now()), lib.Now(), retired)
    ensures outcome.Failed? ==> lib.keys == old(lib.keys)
    ensures old(lib.disk.budget).None? ==> (outcome.Applied? <==> Cuttable(old(lib.disk.root)))
  {
    CutKeysAgain(lib.keys, retired);
    outcome := MoveFolders(lib.disk);
    if !outcome.Applied? { return; }
    var go := lib.disk.Step();
    if !go { return Interrupted; }
    lib.keys := CutKeys(lib.keys, retired);
    go := lib.disk.Step();
    if !go { return Interrupted; }
    lib.disk.root := Retire(lib.disk.root);
  }

  lemma CutKeysAgain(keys: map<nat, Key>, retired: set<nat>)
    ensures CutKeys(CutKeys(keys, retired), retired) == CutKeys(keys, retired)
  {
  }
}
