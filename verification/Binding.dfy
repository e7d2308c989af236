/** Binding a library to its user: the folder half, and the keys that must keep finding their bytes. */
module Binding {
  import opened Wrappers
  import opened FileTree
  import opened Merge
  import opened MergeDir
  import opened Keys

  // ---- Where binding takes the folder ----

  /** Within one directory, `local` is merged into `user`. */
  function MergeIn(d: Node, user: Name): Node {
    if d.Leaf? then d
    else
      var r := MergeAll(Kid(d.kids, LOCAL), Kid(d.kids, user));
      Dir(WithKid(WithKid(d.kids, LOCAL, r.0), user, r.1))
  }

  function MergeApps(apps: Node, user: Name): Node {
    if apps.Leaf? then apps else Dir(map a | a in apps.kids :: MergeIn(apps.kids[a], user))
  }

  /** `mkdirSync` of the shared folder. */
  function WithShared(root: Node): Node
    requires root.Dir?
  {
    if SHARED in root.kids then root else Dir(root.kids[SHARED := Dir(map[])])
  }

  function Bound(root: Node, user: Name): Node
    requires root.Dir?
  {
    var kids := WithShared(root).kids;
    Dir(map n | n in kids ::
      if n == SHARED then MergeIn(kids[n], user) else if n == APPS then MergeApps(kids[n], user) else kids[n])
  }

  predicate ClashIn(d: Node, user: Name) { d.Dir? && ClashAll(Kid(d.kids, LOCAL), Kid(d.kids, user)) }

  /** Nothing the file system would refuse. */
  ghost predicate Bindable(root: Node, user: Name) {
    && root.Dir?
    && (SHARED in root.kids ==> root.kids[SHARED].Dir? && !ClashIn(root.kids[SHARED], user))
    && (APPS in root.kids && Exists(Some(root.kids[APPS])) ==>
          root.kids[APPS].Dir? && forall a :: a in root.kids[APPS].kids ==> !ClashIn(root.kids[APPS].kids[a], user))
  }

  /** Binding makes the shared folder where there is none, and touches no folder but the shared one and the apps'. */
  lemma BoundTouches(root: Node, user: Name, n: Name)
    requires root.Dir?
    ensures var r := Bound(root, user);
            && r.Dir? && r.kids.Keys == root.kids.Keys + {"shared"}
            && (n in root.kids && n != "shared" && n != "apps" ==> r.kids[n] == root.kids[n])
            && ("shared" !in root.kids ==> r.kids["shared"] == Dir(map[]))
  {
  }

  /** A link under the name of the apps' folder is left alone if it leads nowhere, and refused if it leads to a file. */
  lemma AppsLink(root: Node, user: Name)
    requires root.Dir? && APPS in root.kids && root.kids[APPS].Leaf?
    ensures root.kids[APPS].resolves ==> !Bindable(root, user)
    ensures !root.kids[APPS].resolves ==>
      (Bindable(root, user) <==> Bindable(Dir(root.kids - {APPS}), user)) && Bound(root, user).kids[APPS] == root.kids[APPS]
  {
    Words();
  }

  // ---- One directory ----

  /** `now` is `was` on its way to `MergeIn(was, user)`. */
  ghost predicate DirUnderWay(was: Node, now: Node, user: Name) {
    && was.Dir? && now.Dir? && MergeIn(now, user) == MergeIn(was, user)
    && (ClashIn(now, user) <==> ClashIn(was, user))
  }

  lemma MergeInAgain(d: Node, x: Option<Node>, y: Option<Node>, user: Name)
    requires d.Dir? && user != LOCAL
    requires MergeAll(x, y) == MergeAll(Kid(d.kids, LOCAL), Kid(d.kids, user))
    ensures DirUnderWay(d, Dir(WithKid(WithKid(d.kids, LOCAL, x), user, y)), user)
  {
    var kids := WithKid(WithKid(d.kids, LOCAL, x), user, y);
    var r := MergeAll(x, y);
    WithKidsTwice(d.kids, LOCAL, x, r.0, user, y, r.1);
    ClashSettled(x, y);
    ClashSettled(Kid(d.kids, LOCAL), Kid(d.kids, user));
  }

  lemma WithKidsTwice(kids: map<Name, Node>, m: Name, x: Option<Node>, x2: Option<Node>, n: Name, y: Option<Node>, y2: Option<Node>)
    requires m != n
    ensures var kids1 := WithKid(WithKid(kids, m, x), n, y);
            && Kid(kids1, m) == x && Kid(kids1, n) == y
            && WithKid(WithKid(kids1, m, x2), n, y2) == WithKid(WithKid(kids, m, x2), n, y2)
  {
    var a, b := WithKid(WithKid(WithKid(WithKid(kids, m, x), n, y), m, x2), n, y2), WithKid(WithKid(kids, m, x2), n, y2);
    forall k ensures Kid(a, k) == Kid(b, k) {
    }
    SameKids(a, b);
  }

  lemma ClashSettled(f: Option<Node>, t: Option<Node>)
    ensures ClashAll(f, t) <==> ClashAll(MergeAll(f, t).0, MergeAll(f, t).1)
  {
    if f.Some? { ClashStays(f.value, t); }
  }

  /** Two entries of one directory changed in place are that directory changed in place. */
  lemma PutSiblings(root: Node, base: Path, m: Name, x: Option<Node>, n: Name, y: Option<Node>)
    requires CanPut(root, base) && NodeAt(root, base).Dir? && m != n
    ensures CanPut2(root, base + [m], base + [n])
    ensures Get(root, base + [m]) == Kid(NodeAt(root, base).kids, m)
    ensures Get(root, base + [n]) == Kid(NodeAt(root, base).kids, n)
    ensures Put2(root, base + [m], x, base + [n], y)
         == Put(root, base, Some(Dir(WithKid(WithKid(NodeAt(root, base).kids, m, x), n, y))))
  {
    var d := NodeAt(root, base);
    SiblingsApart(base, m, n);
    PutBelow(root, base, m, x);
    PutBelow(root, base, n, y);
    var d1 := Dir(WithKid(d.kids, m, x));
    var r1 := Put(root, base, Some(d1));
    GetPutSame(root, base, Some(d1));
    PutPut(root, base, Some(d1), None);
    PutBelow(r1, base, n, y);
    PutPut(root, base, Some(d1), Some(Dir(WithKid(d1.kids, n, y))));
    GetPutApart(root, base + [m], x, base + [n]);
  }

  /** What a merge of two entries of one directory leaves, seen from the folder above. */
  lemma SiblingsUnderWay(was: Node, now: Node, base: Path, user: Name)
    requires CanPut(was, base) && NodeAt(was, base).Dir? && user != LOCAL
    requires UnderWay(was, now, base + [LOCAL], base + [user])
    ensures CanPut(now, base) && DirUnderWay(NodeAt(was, base), NodeAt(now, base), user)
    ensures now == Put(was, base, Some(NodeAt(now, base)))
    ensures now == Merged(was, base + [LOCAL], base + [user]) ==> NodeAt(now, base) == MergeIn(NodeAt(was, base), user)
  {
    var x, y := Get(now, base + [LOCAL]), Get(now, base + [user]);
    var d := NodeAt(was, base);
    PutSiblings(was, base, LOCAL, x, user, y);
    var d1 := Dir(WithKid(WithKid(d.kids, LOCAL, x), user, y));
    GetPutSame(was, base, Some(d1));
    PutPut(was, base, Some(d1), None);
    MergeInAgain(d, x, y, user);
    var r := MergeAll(Kid(d.kids, LOCAL), Kid(d.kids, user));
    PutSiblings(was, base, LOCAL, r.0, user, r.1);
    var d2 := MergeIn(d, user);
    GetPutSame(was, base, Some(d2));
  }

  // ---- The whole folder ----

  /** `now` is `was` on its way to `Bound(was, user)`. */
  ghost predicate FolderUnderWay(was: Node, now: Node, user: Name) {
    && was.Dir? && now.Dir? && Bound(now, user) == Bound(was, user)
    && (Bindable(was, user) <==> Bindable(now, user))
  }

  lemma SharedStep(was: Node, d: Node, user: Name)
    requires was.Dir? && SHARED in was.kids && DirUnderWay(was.kids[SHARED], d, user)
    ensures Put(was, [SHARED], Some(d)) == Dir(was.kids[SHARED := d])
    ensures FolderUnderWay(was, Dir(was.kids[SHARED := d]), user)
  {
    Words();
    var now := Dir(was.kids[SHARED := d]);
    assert Bound(now, user).kids == Bound(was, user).kids;
  }

  lemma AppStep(was: Node, a: Name, d: Node, user: Name)
    requires was.Dir? && APPS in was.kids && was.kids[APPS].Dir? && a in was.kids[APPS].kids
    requires DirUnderWay(was.kids[APPS].kids[a], d, user)
    ensures var apps := Dir(was.kids[APPS].kids[a := d]);
            && Put(was, [APPS, a], Some(d)) == Dir(was.kids[APPS := apps])
            && FolderUnderWay(was, Dir(was.kids[APPS := apps]), user)
  {
    Words();
    var apps := Dir(was.kids[APPS].kids[a := d]);
    var now := Dir(was.kids[APPS := apps]);
    assert MergeApps(apps, user).kids == MergeApps(was.kids[APPS], user).kids;
    assert WithShared(now).kids == WithShared(was).kids[APPS := apps];
    assert Bound(now, user).kids == Bound(was, user).kids;
    assert Put(was, [APPS, a], Some(d)) == Dir(was.kids[APPS := Put(was.kids[APPS], [a], Some(d))]);
    forall b | b in apps.kids ensures ClashIn(apps.kids[b], user) <==> ClashIn(was.kids[APPS].kids[b], user) {
    }
    assert Exists(Some(apps)) && Exists(Some(was.kids[APPS]));
    if Bindable(was, user) {
      forall b | b in apps.kids ensures !ClashIn(apps.kids[b], user) {
        assert !ClashIn(was.kids[APPS].kids[b], user);
      }
    }
    if Bindable(now, user) {
      forall b | b in was.kids[APPS].kids ensures !ClashIn(was.kids[APPS].kids[b], user) {
        assert !ClashIn(apps.kids[b], user);
      }
    }
  }
}
