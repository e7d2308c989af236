/** `bindLibrary` on a library that may be left at any step, and run again. */
module Library {
  import opened Wrappers
  import opened FileTree
  import opened Merge
  import opened MergeDir
  import opened Keys
  import opened Binding

  datatype BindOutcome = Finished(movedDirs: nat, rewrittenKeys: nat) | NotBindable | Threw | LeftOff

  /** The shape of a user's segment. */
  predicate IsUserSegment(user: Name) {
    && 1 <= |user| <= 64
    && forall i :: 0 <= i < |user| ==> SegmentChar(user[i])
  }

  predicate SegmentChar(c: char) { 'A' <= c <= 'Z' || 'a' <= c <= 'z' || '0' <= c <= '9' || c in {'_', '-'} }

  predicate MayBind(owner: Option<Name>, user: Name) {
    IsUserSegment(user) && user != LOCAL && (owner.None? || owner.value == user)
  }

  function Rebound(keys: map<nat, Key>, user: Name): map<nat, Key> {
    map r | r in keys :: Rebind(keys[r], user)
  }

  function Rewritten(keys: map<nat, Key>, user: Name): set<nat> {
    set r | r in keys && Rebind(keys[r], user) != keys[r]
  }

  /** Something of the directory's `local` will move. */
  predicate MovesIn(d: Node, user: Name) { d.Dir? && MovesAll(Kid(d.kids, LOCAL), Kid(d.kids, user)) }

  function MovingApps(apps: Node, user: Name): set<Name> {
    if apps.Leaf? then {} else set a | a in apps.kids && MovesIn(apps.kids[a], user)
  }

  /** How many of the folder's directories have something to move. */
  function MovedDirs(root: Node, user: Name): nat
    requires root.Dir?
  {
    (if SHARED in root.kids && MovesIn(root.kids[SHARED], user) then 1 else 0)
    + (if APPS in root.kids then |MovingApps(root.kids[APPS], user)| else 0)
  }

  /** In this directory, something of `local` stands where the user's own has nothing. */
  ghost predicate HasNews(root: Node, p: Path, user: Name) {
    && Get(root, p).Some? && Get(root, p).value.Dir?
    && var d := Get(root, p).value;
    && LOCAL in d.kids && (d.kids[LOCAL].Leaf? ==> d.kids[LOCAL].resolves)
    && exists q: Path :: MovesAt(d.kids[LOCAL], Kid(d.kids, user), q)
  }

  lemma MovesInExactly(root: Node, p: Path, user: Name)
    requires Get(root, p).Some? && !ClashIn(Get(root, p).value, user)
    ensures MovesIn(Get(root, p).value, user) <==> HasNews(root, p, user)
  {
    var d := Get(root, p).value;
    if d.Dir? && LOCAL in d.kids { MovesExactly(d.kids[LOCAL], Kid(d.kids, user)); }
  }

  /** The reported directories are the shared folder and the apps' folders in which there is something to move. */
  lemma MovedDirsExactly(root: Node, user: Name)
    requires Bindable(root, user)
    ensures var apps := if APPS in root.kids && root.kids[APPS].Dir? then root.kids[APPS].kids.Keys else {};
            && (forall a :: a in apps ==> Get(root, [APPS, a]).Some?)
            && var news := set a | a in apps && HasNews(root, [APPS, a], user);
               MovedDirs(root, user) == |news| + if HasNews(root, [SHARED], user) then 1 else 0
  {
    var apps := if APPS in root.kids && root.kids[APPS].Dir? then root.kids[APPS].kids.Keys else {};
    if SHARED in root.kids {
      SharedPath(root);
      MovesInExactly(root, [SHARED], user);
    }
    forall a | a in apps ensures Get(root, [APPS, a]) == Some(root.kids[APPS].kids[a])
      && (MovesIn(root.kids[APPS].kids[a], user) <==> HasNews(root, [APPS, a], user))
    {
      AppPath(root, a);
      assert !ClashIn(root.kids[APPS].kids[a], user);
      MovesInExactly(root, [APPS, a], user);
    }
    if APPS in root.kids {
      assert MovingApps(root.kids[APPS], user) == set a | a in apps && HasNews(root, [APPS, a], user);
    }
  }

  /** A library as a stopped run leaves it. */
  datatype Snapshot = Snapshot(root: Node, keys: map<nat, Key>, owner: Option<Name>)

  ghost predicate BindFinished(was: Snapshot, now: Snapshot, user: Name) {
    && MayBind(was.owner, user) && was.root.Dir? && Bindable(was.root, user)
    && now == Snapshot(Bound(was.root, user), Rebound(was.keys, user), Some(user))
  }

  /** One run, stopped anywhere: the next one ends where it would have, and keys and owner change together at the end. */
  ghost predicate BindPass(was: Snapshot, now: Snapshot, user: Name) {
    && FolderUnderWay(was.root, now.root, user) && Rebound(now.keys, user) == Rebound(was.keys, user)
    && (was.owner.Some? && was.owner.value != user ==> now == was)
    && (BindFinished(was, now, user) || (now.keys == was.keys && now.owner == was.owner))
  }

  // ---- One owner ----

  /** The shape by its character codes: digits, letters, `-` and `_`, so never more than one segment of a path. */
  lemma SegmentsByCode(user: Name)
    ensures IsUserSegment(user) <==>
      && user != "" && |user| < 65
      && forall i :: 0 <= i < |user| ==>
           var c := user[i] as int; 48 <= c < 58 || 65 <= c < 91 || 97 <= c < 123 || c == 45 || c == 95
    ensures IsUserSegment(user) ==> '/' !in user && user != "." && user != ".."
  {
    if user != "" && (user == "." || user == "..") { assert user[0] == '.'; }
  }

  /** Runs for any users, one after another, each stopped anywhere or refused. */
  ghost predicate Passes(s: seq<Snapshot>, users: seq<Name>) {
    |s| == |users| + 1 && forall i :: 0 <= i < |users| ==> BindPass(s[i], s[i + 1], users[i])
  }

  /** Whoever tries, a library that has an owner keeps it, and takes nothing from another's run. */
  lemma {:induction false} OwnerStays(s: seq<Snapshot>, users: seq<Name>)
    requires Passes(s, users) && s[0].owner.Some?
    ensures s[|users|].owner == s[0].owner
    ensures (forall u :: u in users ==> Some(u) != s[0].owner) ==> s[|users|] == s[0]
    decreases |users|
  {
    if users != [] {
      var n := |users| - 1;
      OwnerStays(s[..|users|], users[..n]);
      assert BindPass(s[n], s[n + 1], users[n]);
      assert s[..|users|][n] == s[n];
      if forall u :: u in users ==> Some(u) != s[0].owner {
        forall u | u in users[..n] ensures Some(u) != s[0].owner {
          assert u in users;
        }
        assert users[n] in users;
      }
    }
  }

  class Library {
    const disk: Disk
    var keys: map<nat, Key>
    var owner: Option<Name>

    constructor (disk: Disk, keys: map<nat, Key>, owner: Option<Name>)
      ensures this.disk == disk && this.keys == keys && this.owner == owner
    {
      this.disk, this.keys, this.owner := disk, keys, owner;
    }

    ghost function Now(): Snapshot
      reads this, disk
    {
      Snapshot(disk.root, keys, owner)
    }

    /** One directory's `local`, into its `user`. */
    method MergeSiblings(base: Path, user: Name) returns (outcome: Outcome)
      requires CanPut(disk.root, base) && NodeAt(disk.root, base).Dir? && user != LOCAL
      modifies disk
      ensures CanPut(disk.root, base)
      ensures DirUnderWay(old(NodeAt(disk.root, base)), NodeAt(disk.root, base), user)
      ensures disk.root == Put(old(disk.root), base, Some(NodeAt(disk.root, base)))
      ensures outcome.Done? ==> NodeAt(disk.root, base) == old(MergeIn(NodeAt(disk.root, base), user))
      ensures outcome.Done? ==> !old(ClashIn(NodeAt(disk.root, base), user))
      ensures outcome.Done? ==> outcome.moved == old(MovesIn(NodeAt(disk.root, base), user))
      ensures outcome.Refused? ==> old(ClashIn(NodeAt(disk.root, base), user))
      ensures old(disk.budget).None? ==> disk.budget.None? && !outcome.Stopped?
    {
      ghost var was := disk.root;
      PutSiblings(was, base, LOCAL, None, user, None);
      outcome := disk.MergeDir(base + [LOCAL], base + [user]);
      SiblingsUnderWay(was, disk.root, base, user);
    }

    method BindApps(user: Name) returns (outcome: Outcome, movedDirs: nat)
      requires disk.root.Dir? && APPS in disk.root.kids && disk.root.kids[APPS].Dir? && user != LOCAL
      modifies disk
      ensures FolderUnderWay(old(disk.root), disk.root, user)
      ensures outcome.Done? ==>
        disk.root == old(Dir(disk.root.kids[APPS := MergeApps(disk.root.kids[APPS], user)]))
      ensures outcome.Done? ==> forall a :: a in old(disk.root).kids[APPS].kids ==> !ClashIn(old(disk.root).kids[APPS].kids[a], user)
      ensures outcome.Done? ==> movedDirs == |MovingApps(old(disk.root).kids[APPS], user)|
      ensures outcome.Refused? ==> exists a :: a in old(disk.root).kids[APPS].kids && ClashIn(old(disk.root).kids[APPS].kids[a], user)
      ensures old(disk.budget).None? ==> disk.budget.None? && !outcome.Stopped?
    {
      ghost var was := disk.root;
      ghost var apps := was.kids[APPS].kids;
      AppsBegin(was, user);
      movedDirs := 0;
      outcome := Done(false);
      var todo := disk.root.kids[APPS].kids.Keys;
      while todo != {}
        invariant AppsSoFar(was, disk.root, apps, todo, user, movedDirs)
        invariant old(disk.budget).None? ==> disk.budget.None?
        invariant outcome.Done?
        decreases todo
      {
        var a :| a in todo;
        ghost var before := disk.root;
        if disk.root.kids[APPS].kids[a].Dir? {
          AppPath(before, a);
          outcome := MergeSiblings([APPS, a], user);
          ghost var d := NodeAt(disk.root, [APPS, a]);
          AppMerged(was, before, apps, todo, user, movedDirs, a, d);
          if !outcome.Done? { return; }
          apps := apps[a := d];
          if outcome.moved { movedDirs := movedDirs + 1; }
        } else {
          AppSkipped(was, before, apps, todo, user, movedDirs, a);
        }
        todo := todo - {a};
      }
      AppsEnd(was, disk.root, apps, user, movedDirs);
    }

    /** `bindLibrary`, with its database half by what that half promises. */
    method Bind(user: Name) returns (outcome: BindOutcome)
      requires disk.root.Dir?
      modifies this, disk
      // Wherever it stops, the next run ends where this one would have.
      ensures BindPass(old(Now()), Now(), user)
      // Refused are the ids that are no segment of their own, and another user's library, which stays as it is.
      ensures outcome.NotBindable? <==>
        !IsUserSegment(user) || user == LOCAL || (old(owner).Some? && old(owner).value != user)
      ensures outcome.NotBindable? ==> Now() == old(Now())
      ensures outcome.Finished? ==> BindFinished(old(Now()), Now(), user)
      ensures outcome.Finished? ==>
        && outcome.movedDirs == MovedDirs(old(disk.root), user)
        && outcome.rewrittenKeys == |set r | r in old(keys) && r in keys && keys[r] != old(keys)[r]|
      ensures !outcome.Finished? ==> keys == old(keys) && owner == old(owner)
      ensures old(disk.budget).None? && MayBind(old(owner), user) ==> (outcome.Finished? <==> Bindable(old(disk.root), user))
    {
      ghost var was := disk.root;
      if !MayBind(owner, user) { return NotBindable; }
      ReboundAgain(keys, user);
      outcome := BindFolder(user);
      if !outcome.Finished? { return; }
      var go := disk.Step();
      if !go { return LeftOff; }
      outcome := Finished(outcome.movedDirs, |Rewritten(keys, user)|);
      assert Rewritten(keys, user) == set r | r in keys && r in Rebound(keys, user) && Rebound(keys, user)[r] != keys[r];
      keys, owner := Rebound(keys, user), Some(user);
    }

    method BindFolder(user: Name) returns (outcome: BindOutcome)
      requires disk.root.Dir? && user != LOCAL
      modifies disk
      ensures FolderUnderWay(old(disk.root), disk.root, user)
      ensures !outcome.NotBindable?
      ensures outcome.Finished? ==> disk.root == Bound(old(disk.root), user) && Bindable(old(disk.root), user)
      ensures outcome.Finished? ==> outcome.movedDirs == MovedDirs(old(disk.root), user)
      ensures outcome.Threw? ==> !Bindable(old(disk.root), user)
      ensures old(disk.budget).None? ==> disk.budget.None? && !outcome.LeftOff?
    {
      ghost var was := disk.root;
      Words();
      if SHARED !in disk.root.kids {
        var go := disk.Step();
        if !go { return LeftOff; }
        disk.root := Dir(disk.root.kids[SHARED := Dir(map[])]);
        SharedMade(was, user);
      } else if disk.root.kids[SHARED].Leaf? {
        return Threw;
      }
      ghost var made := disk.root;
      SharedPath(made);
      var shared := MergeSiblings([SHARED], user);
      ghost var d := NodeAt(disk.root, [SHARED]);
      SharedStep(made, d, user);
      if !shared.Done? { return if shared.Refused? then Threw else LeftOff; }
      var movedDirs := if shared.moved then 1 else 0;
      if APPS in disk.root.kids && Exists(Some(disk.root.kids[APPS])) {
        if disk.root.kids[APPS].Leaf? { return Threw; }
        var apps, n := BindApps(user);
        if !apps.Done? { return if apps.Refused? then Threw else LeftOff; }
        movedDirs := movedDirs + n;
      }
      FolderBound(made, user);
      outcome := Finished(movedDirs, 0);
    }
  }

  // ---- The loop over the apps ----

  /** The apps outside `todo` are merged, none of them clashed, and `moved` of them had something to move. */
  ghost predicate AppsSoFar(was: Node, now: Node, apps: map<Name, Node>, todo: set<Name>, user: Name, moved: nat) {
    && was.Dir? && APPS in was.kids && was.kids[APPS].Dir?
    && var apps0 := was.kids[APPS].kids;
    && todo <= apps0.Keys && apps.Keys == apps0.Keys
    && now == Dir(was.kids[APPS := Dir(apps)]) && FolderUnderWay(was, now, user)
    && (forall a :: a in apps0 ==> apps[a] == if a in todo then apps0[a] else MergeIn(apps0[a], user))
    && (forall a :: a in apps0 && a !in todo ==> !ClashIn(apps0[a], user))
    && moved == |MovingApps(was.kids[APPS], user) - todo|
  }

  lemma AppsBegin(was: Node, user: Name)
    requires was.Dir? && APPS in was.kids && was.kids[APPS].Dir?
    ensures AppsSoFar(was, was, was.kids[APPS].kids, was.kids[APPS].kids.Keys, user, 0)
  {
    var apps := was.kids[APPS];
    assert was.kids[APPS := Dir(apps.kids)] == was.kids;
    assert MovingApps(apps, user) - apps.kids.Keys == {};
  }

  lemma AppSkipped(was: Node, now: Node, apps: map<Name, Node>, todo: set<Name>, user: Name, moved: nat, a: Name)
    requires AppsSoFar(was, now, apps, todo, user, moved) && a in todo && was.kids[APPS].kids[a].Leaf?
    ensures AppsSoFar(was, now, apps, todo - {a}, user, moved)
  {
    hide Bound, Bindable;
    OneLess(MovingApps(was.kids[APPS], user), todo, a);
  }

  lemma AppMerged(was: Node, before: Node, apps: map<Name, Node>, todo: set<Name>, user: Name, moved: nat, a: Name, d: Node)
    requires AppsSoFar(was, before, apps, todo, user, moved) && a in todo
    requires DirUnderWay(was.kids[APPS].kids[a], d, user)
    ensures CanPut(before, [APPS, a])
    ensures var d0, now := was.kids[APPS].kids[a], Put(before, [APPS, a], Some(d));
            && FolderUnderWay(was, now, user)
            && (d == MergeIn(d0, user) && !ClashIn(d0, user) ==>
                  AppsSoFar(was, now, apps[a := d], todo - {a}, user, moved + if MovesIn(d0, user) then 1 else 0))
  {
    hide MergeIn, MovesIn, ClashIn, DirUnderWay, Bound, Bindable;
    AppPath(before, a);
    AppStep(before, a, d, user);
    assert was.kids[APPS := Dir(apps)][APPS := Dir(apps[a := d])] == was.kids[APPS := Dir(apps[a := d])];
    OneLess(MovingApps(was.kids[APPS], user), todo, a);
  }

  lemma AppsEnd(was: Node, now: Node, apps: map<Name, Node>, user: Name, moved: nat)
    requires AppsSoFar(was, now, apps, {}, user, moved)
    ensures now == Dir(was.kids[APPS := MergeApps(was.kids[APPS], user)])
    ensures moved == |MovingApps(was.kids[APPS], user)|
  {
    assert MergeApps(was.kids[APPS], user).kids == apps;
    assert MovingApps(was.kids[APPS], user) - {} == MovingApps(was.kids[APPS], user);
  }

  lemma OneLess(s: set<Name>, todo: set<Name>, a: Name)
    requires a in todo
    ensures |s - (todo - {a})| == |s - todo| + (if a in s then 1 else 0)
  {
    if a in s {
      assert s - (todo - {a}) == (s - todo) + {a};
    } else {
      assert s - (todo - {a}) == s - todo;
    }
  }

  lemma SharedPath(root: Node)
    requires root.Dir? && SHARED in root.kids
    ensures CanPut(root, [SHARED]) && Get(root, [SHARED]) == Some(root.kids[SHARED])
  {
  }

  lemma SharedMade(root: Node, user: Name)
    requires root.Dir? && SHARED !in root.kids && user != LOCAL
    ensures FolderUnderWay(root, WithShared(root), user)
  {
  }

  lemma FolderBound(root: Node, user: Name)
    requires root.Dir? && SHARED in root.kids && root.kids[SHARED].Dir?
    ensures var kids := root.kids[SHARED := MergeIn(root.kids[SHARED], user)];
            Bound(root, user) == Dir(
              if APPS in root.kids && root.kids[APPS].Dir? then kids[APPS := MergeApps(root.kids[APPS], user)] else kids)
  {
  }

  lemma AppPath(root: Node, a: Name)
    requires root.Dir? && APPS in root.kids && root.kids[APPS].Dir? && a in root.kids[APPS].kids
    ensures CanPut(root, [APPS, a]) && Get(root, [APPS, a]) == Some(root.kids[APPS].kids[a])
  {
    var apps := root.kids[APPS];
    assert [APPS, a][1..] == [a] && [a][1..] == [];
    assert Get(apps, [a]) == Get(apps.kids[a], []);
  }

  lemma ReboundAgain(keys: map<nat, Key>, user: Name)
    requires user != LOCAL
    ensures Rebound(Rebound(keys, user), user) == Rebound(keys, user)
  {
  }
}
