/** Stored keys keep finding their bytes through the cutover and the binding after it. */
module KeysFollow {
  import opened Wrappers
  import opened FileTree
  import opened Merge
  import opened Keys
  import opened Binding
  import opened Cutover
  import opened Library

  /** A key of either layout: shared/[owner/]category/shard/hash or apps/app/[owner/]syncable/rest. */
  predicate WellFormed(k: Key) {
    || OldShared(k)
    || (|k| == 5 && k[0] == SHARED && k[1] !in CATEGORIES && k[2] in CATEGORIES)
    || OldApp(k)
    || (|k| >= 5 && k[0] == APPS && k[2] != SYNCABLE && k[3] == SYNCABLE)
  }

  /** A key of the retired records. */
  predicate IsRetired(k: Key) {
    (OldShared(k) && k[1] == RETIRED) || (|k| >= 3 && k[0] == SHARED && k[1] == LOCAL && k[2] == RETIRED)
  }

  // ---- The cutover ----

  lemma CutInKeepsBytes(d: Node, want: set<Name>, follow: bool, p: Path)
    requires d.Dir? && !CutClash(d, want, follow) && LOCAL !in want && |p| >= 2 && Resolve(d, p).Some?
    ensures Resolve(CutIn(d, want, follow), if p[0] in want then [LOCAL] + p else p) == Resolve(d, p)
  {
    var n := p[0];
    var q := if n in want then [LOCAL] + p else p;
    var d1 := CutIn(d, want, follow);
    StepDown(d, p);
    ResolvesThrough(d.kids[n], p[1..]);
    StepDown(d1, q);
    if n in want {
      assert Wanted(d.kids, want, follow, n) && n in Moving(d.kids, want, follow);
      assert q[1..] == p;
      StepDown(d1.kids[LOCAL], p);
    } else if n == LOCAL && Moving(d.kids, want, follow) != {} {
      assert n in d.kids && d.kids[n].Dir? by {
        var m :| m in Moving(d.kids, want, follow);
      }
      StepDown(d.kids[n], p[1..]);
      StepDown(d1.kids[n], p[1..]);
      ResolvesThrough(d.kids[n].kids[p[1]], p[1..][1..]);
      assert p[1] !in Moving(d.kids, want, follow);
    }
  }

  lemma CutKeepsBytes(root: Node, k: Key)
    requires Cuttable(root) && WellFormed(k) && Resolve(root, k).Some?
    ensures Resolve(Cut(root), ToLocal(k)) == Resolve(root, k)
    ensures WellFormed(ToLocal(k)) && !OldLayout(ToLocal(k))
  {
    Words();
    ToLocalLeavesTheOldLayout(k);
    var l := ToLocal(k);
    var r1 := Cut(root);
    StepDown(root, k);
    StepDown(r1, l);
    var d := root.kids[k[0]];
    if k[0] == SHARED {
      InsideADirectory(d, k[1..]);
      CutInKeepsBytes(d, CATEGORIES, false, k[1..]);
      assert OldShared(k) ==> l[1..] == [LOCAL] + k[1..];
    } else {
      InsideADirectory(d, k[1..]);
      StepDown(d, k[1..]);
      StepDown(r1.kids[APPS], l[1..]);
      var a, p := d.kids[k[1]], k[1..][1..];
      InsideADirectory(a, p);
      assert p == k[2..];
      CutInKeepsBytes(a, APP_FOLDERS, true, p);
      assert l[1..][1..] == if OldApp(k) then [LOCAL] + p else p;
    }
  }

  lemma InsideADirectory(d: Node, p: Path)
    requires Resolve(d, p).Some? && p != []
    ensures d.Dir? && p[0] in d.kids
  {
  }

  lemma PutApartResolves(root: Node, p: Path, o: Option<Node>, q: Path)
    requires CanPut(root, p) && Apart(p, q)
    ensures Resolve(Put(root, p, o), q) == Resolve(root, q)
  {
  }

  /** A completed cutover leaves every key's rewrite finding what the key found. */
  lemma CutoverKeepsBytes(root: Node, k: Key)
    requires Cuttable(root) && WellFormed(k) && !IsRetired(k) && Resolve(root, k).Some?
    ensures Resolve(Retire(Cut(root)), ToLocal(k)) == Resolve(root, k)
  {
    Words();
    CutKeepsBytes(root, k);
    var p, l := [SHARED, LOCAL, RETIRED], ToLocal(k);
    if CanPut(Cut(root), p) {
      assert Apart(p, l) by {
        assert p[1..] == [LOCAL, RETIRED] && p[1..][1..] == [RETIRED];
        assert |l| >= 5;
        assert l[1..][0] == l[1] && l[1..][1..][0] == l[2];
      }
      PutApartResolves(Cut(root), p, None, l);
    }
  }

  /** Nothing is left to cut, so a run on a finished library changes no folder. */
  lemma CutInIsFinal(d: Node, want: set<Name>, follow: bool)
    requires !CutClash(d, want, follow) && LOCAL !in want
    ensures CutIn(d, want, follow).Dir? ==> forall n :: !Wanted(CutIn(d, want, follow).kids, want, follow, n)
  {
    if d.Dir? {
      forall n ensures !Wanted(CutIn(d, want, follow).kids, want, follow, n) {
        if Wanted(d.kids, want, follow, n) { assert n in Moving(d.kids, want, follow); }
      }
    }
  }

  lemma NothingWanted(d: Node, want: set<Name>, follow: bool)
    requires d.Dir? ==> forall n :: !Wanted(d.kids, want, follow, n)
    ensures CutIn(d, want, follow) == d
  {
  }

  lemma CutoverIsFinal(root: Node)
    requires Cuttable(root)
    ensures Cut(Retire(Cut(root))) == Retire(Cut(root)) && Retire(Retire(Cut(root))) == Retire(Cut(root))
  {
    Words();
    var r := Cut(root);
    var f := Retire(r);
    RetireTwice(r);
    forall n | n in f.kids ensures Cut(f).kids[n] == f.kids[n] {
      if n == SHARED {
        assert n in root.kids && r.kids[n] == CutIn(root.kids[n], CATEGORIES, false);
        CutInIsFinal(root.kids[n], CATEGORIES, false);
        SameNamesWanted(r.kids[n], f.kids[n], CATEGORIES);
        NothingWanted(f.kids[n], CATEGORIES, false);
      } else if n == APPS && f.kids[n].Dir? {
        CutAppsIsFinal(root.kids[n]);
      }
    }
    assert Cut(f).kids == f.kids;
  }

  lemma RetireTwice(r: Node)
    requires r.Dir?
    ensures var f := Retire(r);
            && Retire(f) == f && f.Dir? && f.kids.Keys == r.kids.Keys
            && (forall n :: n in r.kids && n != SHARED ==> f.kids[n] == r.kids[n])
            && (SHARED in r.kids ==> (f.kids[SHARED].Dir? <==> r.kids[SHARED].Dir?))
            && (SHARED in r.kids && r.kids[SHARED].Dir? ==> f.kids[SHARED].kids.Keys == r.kids[SHARED].kids.Keys)
  {
    var p := [SHARED, LOCAL, RETIRED];
    if CanPut(r, p) {
      PutPut(r, p, None, None);
      RetiredFolder(r);
    }
  }

  lemma SameNamesWanted(d: Node, e: Node, want: set<Name>)
    requires (d.Dir? <==> e.Dir?) && (d.Dir? ==> e.kids.Keys == d.kids.Keys)
    requires d.Dir? ==> forall n :: !Wanted(d.kids, want, false, n)
    ensures e.Dir? ==> forall n :: !Wanted(e.kids, want, false, n)
  {
    if e.Dir? {
      forall n ensures !Wanted(e.kids, want, false, n) {
        assert !Wanted(d.kids, want, false, n);
      }
    }
  }

  lemma CutAppsIsFinal(apps: Node)
    requires apps.Dir? ==> forall a :: a in apps.kids ==> !CutClash(apps.kids[a], APP_FOLDERS, true)
    ensures CutApps(CutApps(apps)) == CutApps(apps)
  {
  }

  lemma RetiredFolder(r: Node)
    requires CanPut(r, [SHARED, LOCAL, RETIRED])
    ensures var f := Put(r, [SHARED, LOCAL, RETIRED], None);
            && f.kids.Keys == r.kids.Keys && (forall n :: n in r.kids && n != SHARED ==> f.kids[n] == r.kids[n])
            && SHARED in r.kids && r.kids[SHARED].Dir? && f.kids[SHARED].Dir?
            && f.kids[SHARED].kids.Keys == r.kids[SHARED].kids.Keys
  {
  }

  // ---- Binding ----

  function ResolveIn(o: Option<Node>, p: Path): Option<string> { if o.Some? then Resolve(o.value, p) else None }

  /** What each place holds after a merge: only what stood at the two places decides. */
  lemma MergedFinds(f: Option<Node>, t: Option<Node>, p: Path)
    requires !ClashAll(f, t) && p != []
    ensures var r := MergeAll(f, t);
            && ResolveIn(r.1, p) == (if Exists(Within(t, p)) then ResolveIn(t, p) else ResolveIn(f, p))
            && ResolveIn(r.0, p) == if Exists(Within(t, p)) then ResolveIn(f, p) else None
  {
    if f.Some? && f.value.Dir? {
      var r := MergeNode(f.value, t);
      if IsLeaf(Get(f.value, p)) {
        LeavesArrive(f.value, t, p);
      } else {
        if ResolveIn(t, p).Some? { DestinationKept(f.value, t, p); }
        if IsLeaf(Get(r.1.value, p)) { NothingMadeUp(f.value, t, p); }
        if ResolveIn(r.0, p).Some? { OnlyCollisionsStay(f.value, t, p); }
      }
    }
  }

  lemma MergeInFinds(d: Node, user: Name, p: Path)
    requires d.Dir? && !ClashIn(d, user) && user != LOCAL && |p| >= 2
    ensures Resolve(MergeIn(d, user), p) ==
      if p[0] == user && !Exists(Get(d, p)) then Resolve(d, [LOCAL] + p[1..])
      else if p[0] == LOCAL && !Exists(Get(d, [user] + p[1..])) then None
      else Resolve(d, p)
  {
    var f, t := Kid(d.kids, LOCAL), Kid(d.kids, user);
    var d1, rest := MergeIn(d, user), p[1..];
    assert Kid(d1.kids, LOCAL) == MergeAll(f, t).0 && Kid(d1.kids, user) == MergeAll(f, t).1;
    MergedFinds(f, t, rest);
    StepDown(d, p);
    StepDown(d1, p);
    assert ([LOCAL] + rest)[1..] == rest && ([user] + rest)[1..] == rest;
    StepDown(d, [LOCAL] + rest);
    StepDown(d, [user] + rest);
    assert p == [p[0]] + rest;
  }

  /** A key with an owner's segment, at `OwnerAt`. */
  predicate Owned(k: Key) { (|k| >= 3 && k[0] == SHARED) || (|k| >= 4 && k[0] == APPS) }

  function OwnerAt(k: Key): nat { if |k| > 0 && k[0] == SHARED then 1 else 2 }

  /** What a key finds once the library is bound, read off the library before. */
  function Found(root: Node, user: Name, k: Key): Option<string>
    requires Owned(k)
  {
    var i := OwnerAt(k);
    if k[i] == user && !Exists(Get(root, k)) then Resolve(root, k[i := LOCAL])
    else if k[i] == LOCAL && !Exists(Get(root, k[i := user])) then None
    else Resolve(root, k)
  }

  lemma BoundFinds(root: Node, user: Name, k: Key)
    requires Bindable(root, user) && user != LOCAL && Owned(k)
    ensures Resolve(Bound(root, user), k) == Found(root, user, k)
  {
    Words();
    var i, rest := OwnerAt(k), k[1..];
    StepDown(Bound(root, user), k);
    StepDown(root, k);
    StepDown(root, k[i := LOCAL]);
    StepDown(root, k[i := user]);
    if k[0] in root.kids {
      if k[0] == SHARED {
        MergeInFinds(root.kids[SHARED], user, rest);
        assert k[i := LOCAL][1..] == [LOCAL] + rest[1..] && k[i := user][1..] == [user] + rest[1..];
      } else if root.kids[APPS].Dir? {
        AppFinds(root.kids[APPS], user, k);
      }
    }
  }

  lemma AppFinds(apps: Node, user: Name, k: Key)
    requires apps.Dir? && (forall a :: a in apps.kids ==> !ClashIn(apps.kids[a], user)) && user != LOCAL && |k| >= 4
    ensures Resolve(MergeApps(apps, user), k[1..]) ==
      if k[2] == user && !Exists(Get(apps, k[1..])) then Resolve(apps, k[2 := LOCAL][1..])
      else if k[2] == LOCAL && !Exists(Get(apps, k[2 := user][1..])) then None
      else Resolve(apps, k[1..])
  {
    var rest := k[1..];
    var p := rest[1..];
    StepDown(MergeApps(apps, user), rest);
    StepDown(apps, rest);
    StepDown(apps, k[2 := LOCAL][1..]);
    StepDown(apps, k[2 := user][1..]);
    assert k[2 := LOCAL][1..][1..] == [LOCAL] + p[1..] && k[2 := user][1..][1..] == [user] + p[1..];
    if k[1] in apps.kids && apps.kids[k[1]].Dir? { MergeInFinds(apps.kids[k[1]], user, p); }
  }

  /**
   * A completed binding leaves a key's rewrite finding what the key found exactly if the owner's folder held nothing at
   * the rewrite's place, or the same bytes.
   */
  lemma BindingKeepsBytes(root: Node, k: Key, user: Name)
    requires Bindable(root, user) && user != LOCAL && WellFormed(k) && !OldLayout(k) && Resolve(root, k).Some?
    ensures var l := Rebind(k, user);
            Resolve(Bound(root, user), l) == Resolve(root, k) <==>
              !Exists(Get(root, l)) || Resolve(root, l) == Resolve(root, k)
  {
    Words();
    var l := Rebind(k, user);
    BoundFinds(root, user, l);
    if k[OwnerAt(k)] == LOCAL { assert l[OwnerAt(k) := LOCAL] == k; }
  }

  // ---- Any number of runs, cut short and run again ----

  /** One run after another, each stopped anywhere, the last of them through to its end. */
  ghost predicate CutRuns(s: seq<Snapshot>, retired: set<nat>) {
    && |s| >= 2 && (forall i :: 0 <= i < |s| - 1 ==> CutPass(s[i], s[i + 1], retired))
    && CutApplied(s[|s| - 2], s[|s| - 1], retired)
  }

  ghost predicate BindRuns(s: seq<Snapshot>, user: Name) {
    && |s| >= 2 && (forall i :: 0 <= i < |s| - 1 ==> BindPass(s[i], s[i + 1], user))
    && BindFinished(s[|s| - 2], s[|s| - 1], user)
  }

  lemma PassThenEnd(was: Snapshot, mid: Snapshot, end: Snapshot, retired: set<nat>)
    requires CutPass(was, mid, retired) && CutApplied(mid, end, retired)
    ensures CutApplied(was, end, retired)
  {
    if !CutFolderUnderWay(was.root, mid.root) { CutoverIsFinal(was.root); }
    hide Cut, Retire, Cuttable;
  }

  /** Where runs of the cutover end is where the first would have ended alone. */
  lemma {:induction false} CutRunsEnd(s: seq<Snapshot>, retired: set<nat>)
    requires CutRuns(s, retired)
    ensures CutApplied(s[0], s[|s| - 1], retired)
  {
    if |s| > 2 {
      var rest := s[1..];
      forall i | 0 <= i < |rest| - 1 ensures CutPass(rest[i], rest[i + 1], retired) {
        assert CutPass(s[i + 1], s[i + 2], retired);
      }
      CutRunsEnd(rest, retired);
      assert CutPass(s[0], s[1], retired);
      PassThenEnd(s[0], s[1], s[|s| - 1], retired);
    }
  }

  lemma {:induction false} BindRunsEnd(s: seq<Snapshot>, user: Name)
    requires BindRuns(s, user)
    ensures s[0].root.Dir? && Bindable(s[0].root, user) && user != LOCAL
    ensures s[|s| - 1] == Snapshot(Bound(s[0].root, user), Rebound(s[0].keys, user), Some(user))
  {
    if |s| > 2 {
      var rest := s[1..];
      forall i | 0 <= i < |rest| - 1 ensures BindPass(rest[i], rest[i + 1], user) {
        assert BindPass(s[i + 1], s[i + 2], user);
      }
      BindRunsEnd(rest, user);
      assert BindPass(s[0], s[1], user);
    }
  }

  /**
   * Runs of the cutover, then runs of the binding, each cut short any number of times before one comes through: every
   * row whose key found its bytes holds that key's rewrite, and it finds the same bytes exactly if nothing else stood
   * at its place once the cutover was done.
   */
  lemma KeysFollowFiles(cuts: seq<Snapshot>, binds: seq<Snapshot>, retired: set<nat>, user: Name, row: nat)
    requires CutRuns(cuts, retired) && BindRuns(binds, user) && binds[0] == cuts[|cuts| - 1]
    requires row in cuts[0].keys && row !in retired
    requires var k := cuts[0].keys[row]; WellFormed(k) && !IsRetired(k) && Resolve(cuts[0].root, k).Some?
    ensures var k, now := cuts[0].keys[row], binds[|binds| - 1];
            var l, bytes := Rebind(ToLocal(k), user), Resolve(cuts[0].root, k);
            && row in now.keys && now.keys[row] == l && now.owner == Some(user)
            && (Resolve(now.root, l) == bytes <==> !Exists(Get(binds[0].root, l)) || Resolve(binds[0].root, l) == bytes)
  {
    CutRunsEnd(cuts, retired);
    BindRunsEnd(binds, user);
    var k := cuts[0].keys[row];
    CutoverKeepsBytes(cuts[0].root, k);
    CutKeepsBytes(cuts[0].root, k);
    BindingKeepsBytes(binds[0].root, ToLocal(k), user);
  }

  /**
   * A binding stopped for one user between the folder and the database, and then completed for another: the files stay
   * with the first, and the rewritten keys find only what the second's folder held before.
   */
  lemma AnotherUsersRunLosesKeys(was: Snapshot, mid: Snapshot, now: Snapshot, user: Name, other: Name, row: nat)
    requires BindPass(was, mid, user) && mid.root == Bound(was.root, user) && mid.keys == was.keys
    requires Bindable(was.root, user) && user != LOCAL && other != user && BindFinished(mid, now, other)
    requires row in was.keys && (LocalShared(was.keys[row]) || LocalApp(was.keys[row]))
    requires !Exists(Get(was.root, Rebind(was.keys[row], user)))
    ensures var k := was.keys[row];
            && row in now.keys && now.keys[row] == Rebind(k, other)
            && Resolve(now.root, Rebind(k, user)) == Resolve(was.root, k)
            && Resolve(now.root, now.keys[row]) == Resolve(was.root, Rebind(k, other))
  {
    Words();
    hide Bound, Bindable, FolderUnderWay, IsUserSegment;
    var k := was.keys[row];
    var mine, theirs := Rebind(k, user), Rebind(k, other);
    BoundFinds(was.root, user, k);
    BoundFinds(was.root, user, mine);
    BoundFinds(was.root, user, theirs);
    BoundFinds(mid.root, other, mine);
    BoundFinds(mid.root, other, theirs);
    assert mine[OwnerAt(k) := LOCAL] == k && theirs[OwnerAt(k) := LOCAL] == k;
  }

  // ---- What the binding statements do to a key that holds `/local/syncable/` twice ----

  /**
   * With the statements as they are written, a file an app keeps under its own `local/syncable/` is lost to its key: an
   * app's key finds its bytes after binding exactly if `/local/syncable/` does not stand in it a second time, but for
   * what else happens to stand at the place the statements point it to.
   */
  lemma StatementsLoseTheKey(root: Node, k: Key, user: Name)
    requires Bindable(root, user) && user != LOCAL && LocalApp(k) && Resolve(root, k).Some?
    ensures var l := SqlRebind(k, user);
            && |l| == |k| && l[2] == user
            && (Resolve(Bound(root, user), l) == Resolve(root, k) <==>
                  if Exists(Get(root, l)) then Resolve(root, l) == Resolve(root, k)
                  else !HasPair(k, 5) || Resolve(root, l[2 := LOCAL]) == Resolve(root, k))
  {
    Words();
    SqlKeepsThePromise(k, user);
    var l := SqlRebind(k, user);
    SqlKeepsTheOwner(k, user);
    BoundFinds(root, user, l);
    if !HasPair(k, 5) { assert l[2 := LOCAL] == k; }
  }

  lemma SqlKeepsTheOwner(k: Key, user: Name)
    requires LocalApp(k)
    ensures var l := SqlRebind(k, user); |l| == |k| && l[0] == APPS && l[2] == user
  {
    Words();
    assert PairAt(k, 2);
    var s1, s2 := k[1..], k[2..];
    assert s1[1..] == s2;
    assert ReplaceFrom(s1, user) == [k[1]] + ReplaceFrom(s2, user);
    SameLength(s2[3..], user);
  }

  lemma {:induction false} SameLength(s: Key, user: Name)
    ensures |ReplaceFrom(s, user)| == |s|
  {
    if |s| >= 3 {
      if s[0] == LOCAL && s[1] == SYNCABLE { SameLength(s[3..], user); } else { SameLength(s[1..], user); }
    }
  }

  /** A folder with one file in it. */
  function Single(p: Path, data: string): Node {
    if p == [] then Leaf(data, true) else Dir(map[p[0] := Single(p[1..], data)])
  }

  lemma {:induction false} SingleResolves(p: Path, data: string, q: Path)
    ensures Resolve(Single(p, data), q) == if q == p then Some(data) else None
    ensures p != [] && Exists(Get(Single(p, data), q)) ==> q <= p
    decreases |p|
  {
    if p != [] && q != [] {
      StepDown(Single(p, data), q);
      if p[0] == q[0] { SingleResolves(p[1..], data, q[1..]); }
      assert p == [p[0]] + p[1..] && q == [q[0]] + q[1..];
    }
  }

  lemma NestedKeyIsLost()
    ensures var k := [APPS, "notes", LOCAL, SYNCABLE, "a", LOCAL, SYNCABLE, "b"];
            Resolve(Single(k, "text"), k) == Some("text")
            && Resolve(Bound(Single(k, "text"), "u1"), SqlRebind(k, "u1")) != Some("text")
  {
    var k := [APPS, "notes", LOCAL, SYNCABLE, "a", LOCAL, SYNCABLE, "b"];
    var root, l := Single(k, "text"), SqlRebind(k, "u1");
    assert PairAt(k, 5);
    assert "u1"[0] != LOCAL[0];
    SingleResolves(k, "text", k);
    SingleIsBindable(k, "text", "u1");
    StatementsLoseTheKey(root, k, "u1");
    SingleResolves(k, "text", l);
    SingleResolves(k, "text", l[2 := LOCAL]);
    SqlKeepsThePromise(k, "u1");
    assert l[2 := LOCAL] != k;
  }

  lemma SingleIsBindable(k: Key, data: string, user: Name)
    requires LocalApp(k) && user != LOCAL
    ensures Bindable(Single(k, data), user)
  {
    Words();
    var k1, k2 := k[1..], k[2..];
    assert k1[1..] == k2;
    assert Single(k, data).kids[APPS] == Single(k1, data) == Dir(map[k[1] := Single(k2, data)]);
    assert Kid(Single(k2, data).kids, user) == None;
  }
}
