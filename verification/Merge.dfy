/** Where a merge of one tree into another ends, whatever the order of its steps and however often it is cut short. */
module Merge {
  import opened Wrappers
  import opened FileTree

  type Pair = (Option<Node>, Option<Node>)

  /** What is left at the source, and what stands at the destination, once nothing more can move. */
  function MergeNode(f: Node, t: Option<Node>): (r: Pair)
    ensures f.Dir? ==> r.1.Some?
    decreases f, 0
  {
    if f.Leaf? then if f.resolves && !Exists(t) then (None, Some(f)) else (Some(f), t)
    else if t.None? then (None, Some(f))
    else if t.value.Leaf? then (if t.value.resolves && f.kids == map[] then None else Some(f), t)
    else
      var stay := map n | n in f.kids && MergeEntry(f.kids[n], Kid(t.value.kids, n)).0.Some?
                  :: MergeEntry(f.kids[n], Kid(t.value.kids, n)).0.value;
      var there := map n | n in f.kids.Keys + t.value.kids.Keys
                   :: if n in f.kids then MergeEntry(f.kids[n], Kid(t.value.kids, n)).1.value else t.value.kids[n];
      (if stay == map[] then None else Some(Dir(stay)), Some(Dir(there)))
  }

  /** One name of a source directory. A leaf moves, link or file, unless something exists under its name. */
  function MergeEntry(f: Node, t: Option<Node>): (r: Pair)
    ensures r.1.Some?
    decreases f, 1
  {
    if f.Leaf? then if Exists(t) then (Some(f), t) else (None, Some(f))
    else MergeNode(f, t)
  }

  function MergeAll(f: Option<Node>, t: Option<Node>): Pair {
    if f.Some? then MergeNode(f.value, t) else (None, t)
  }

  function MergeName(f: Option<Node>, t: Option<Node>): Pair {
    if f.Some? then MergeEntry(f.value, t) else (None, t)
  }

  /** A step of the merge is bound to be refused: a directory meets something that is not one. */
  predicate Clash(f: Node, t: Option<Node>)
    decreases f
  {
    if f.Leaf? then f.resolves && Exists(t)
    else if t.None? then false
    else if t.value.Leaf? then !t.value.resolves || f.kids != map[]
    else exists n :: n in f.kids && f.kids[n].Dir? && Clash(f.kids[n], Kid(t.value.kids, n))
  }

  predicate ClashAll(f: Option<Node>, t: Option<Node>) { f.Some? && Clash(f.value, t) }

  /** The same for one name of a source directory, where a leaf never clashes. */
  predicate ClashEntry(f: Option<Node>, t: Option<Node>) { f.Some? && f.value.Dir? && Clash(f.value, t) }

  /** `mergeDir`'s answer. */
  predicate Moves(f: Node, t: Option<Node>)
    decreases f, 0
  {
    if f.Leaf? then f.resolves && !Exists(t)
    else if !Exists(t) then true
    else if t.value.Leaf? then false
    else exists n :: n in f.kids && MovesEntry(f.kids[n], Kid(t.value.kids, n))
  }

  predicate MovesEntry(f: Node, t: Option<Node>)
    decreases f, 1
  {
    if f.Leaf? then !Exists(t) else Moves(f, t)
  }

  predicate MovesAll(f: Option<Node>, t: Option<Node>) { f.Some? && Moves(f.value, t) }

  function Kids(o: Option<Node>): map<Name, Node> { if o.Some? && o.value.Dir? then o.value.kids else map[] }

  // ---- Name by name ----

  lemma NameByName(fk: map<Name, Node>, tk: map<Name, Node>, n: Name)
    ensures var r := MergeNode(Dir(fk), Some(Dir(tk)));
            && (r.0.None? || (r.0.value.Dir? && r.0.value.kids != map[])) && r.1.Some? && r.1.value.Dir?
            && (Kid(Kids(r.0), n), Kid(Kids(r.1), n)) == MergeName(Kid(fk, n), Kid(tk, n))
  {
  }

  /** Directories that merge alike under every name merge alike. */
  lemma SameMerge(fk: map<Name, Node>, tk: map<Name, Node>, fk2: map<Name, Node>, tk2: map<Name, Node>)
    requires forall n :: MergeName(Kid(fk, n), Kid(tk, n)) == MergeName(Kid(fk2, n), Kid(tk2, n))
    ensures MergeNode(Dir(fk), Some(Dir(tk))) == MergeNode(Dir(fk2), Some(Dir(tk2)))
  {
    var r, r2 := MergeNode(Dir(fk), Some(Dir(tk))), MergeNode(Dir(fk2), Some(Dir(tk2)));
    forall n ensures Kid(Kids(r.0), n) == Kid(Kids(r2.0), n) && Kid(Kids(r.1), n) == Kid(Kids(r2.1), n) {
      NameByName(fk, tk, n);
      NameByName(fk2, tk2, n);
    }
    SameKids(Kids(r.0), Kids(r2.0));
    SameKids(Kids(r.1), Kids(r2.1));
    NameByName(fk, tk, "");
    NameByName(fk2, tk2, "");
  }

  lemma SameKids(a: map<Name, Node>, b: map<Name, Node>)
    requires forall n :: Kid(a, n) == Kid(b, n)
    ensures a == b
  {
    forall n ensures n in a <==> n in b {
      assert Kid(a, n) == Kid(b, n);
    }
    forall n | n in a ensures a[n] == b[n] {
      assert Kid(a, n) == Kid(b, n);
    }
  }

  // ---- A finished merge is finished ----

  lemma {:induction false} MergeIsIdempotent(f: Node, t: Option<Node>)
    ensures var r := MergeNode(f, t); MergeAll(r.0, r.1) == r
    decreases f, 0
  {
    if f.Dir? && t.Some? && t.value.Dir? {
      var fk, tk := f.kids, t.value.kids;
      var r := MergeNode(f, t);
      var fk2, tk2 := Kids(r.0), Kids(r.1);
      forall n ensures MergeName(Kid(fk, n), Kid(tk, n)) == MergeName(Kid(fk2, n), Kid(tk2, n)) {
        NameByName(fk, tk, n);
        if n in fk { EntryIsIdempotent(fk[n], Kid(tk, n)); }
      }
      SameMerge(fk, tk, fk2, tk2);
      NameByName(fk, tk, "");
    }
  }

  lemma {:induction false} EntryIsIdempotent(f: Node, t: Option<Node>)
    ensures var r := MergeEntry(f, t); MergeName(r.0, r.1) == r
    decreases f, 1
  {
    if f.Dir? {
      MergeIsIdempotent(f, t);
      var r := MergeNode(f, t);
      if r.0.Some? { StaysADirectory(f, t); }
    }
  }

  lemma StaysADirectory(f: Node, t: Option<Node>)
    requires f.Dir? && MergeNode(f, t).0.Some?
    ensures MergeNode(f, t).0.value.Dir?
  {
  }

  /** A clash is still there afterwards, and no new one arises. */
  lemma {:induction false} ClashStays(f: Node, t: Option<Node>)
    ensures var r := MergeNode(f, t); Clash(f, t) <==> ClashAll(r.0, r.1)
    decreases f
  {
    if f.Dir? && t.Some? && t.value.Dir? {
      var fk, tk := f.kids, t.value.kids;
      var r := MergeNode(f, t);
      var fk2, tk2 := Kids(r.0), Kids(r.1);
      NameByName(fk, tk, "");
      forall n ensures (n in fk && fk[n].Dir? && Clash(fk[n], Kid(tk, n)))
                  <==> (n in fk2 && fk2[n].Dir? && Clash(fk2[n], Kid(tk2, n))) {
        NameByName(fk, tk, n);
        if n in fk && fk[n].Dir? {
          ClashStays(fk[n], Kid(tk, n));
          if n in fk2 { StaysADirectory(fk[n], Kid(tk, n)); }
        }
      }
      if Clash(f, t) {
        var n :| n in fk && fk[n].Dir? && Clash(fk[n], Kid(tk, n));
        assert n in fk2;
      }
    }
  }

  /** A second full run moves nothing. */
  lemma {:induction false} NothingMovesTwice(f: Node, t: Option<Node>)
    requires !Clash(f, t)
    ensures var r := MergeNode(f, t); !MovesAll(r.0, r.1)
    decreases f
  {
    if f.Dir? && t.Some? && t.value.Dir? {
      var fk, tk := f.kids, t.value.kids;
      var r := MergeNode(f, t);
      var fk2, tk2 := Kids(r.0), Kids(r.1);
      NameByName(fk, tk, "");
      if r.0.Some? {
        forall n | n in fk2 ensures !MovesEntry(fk2[n], Kid(tk2, n)) {
          NameByName(fk, tk, n);
          assert n in fk;
          if fk[n].Dir? {
            NothingMovesTwice(fk[n], Kid(tk, n));
            StaysADirectory(fk[n], Kid(tk, n));
          }
        }
      }
    }
  }

  /** A run that reports no move has left the destination as it was. */
  lemma {:induction false} NoMoveNoChange(f: Node, t: Option<Node>)
    requires !Moves(f, t)
    ensures MergeNode(f, t).1 == t
    decreases f
  {
    if f.Dir? && t.Some? && t.value.Dir? {
      var fk, tk := f.kids, t.value.kids;
      var r := MergeNode(f, t);
      forall n ensures Kid(Kids(r.1), n) == Kid(tk, n) {
        NameByName(fk, tk, n);
        if n in fk {
          assert !MovesEntry(fk[n], Kid(tk, n));
          if fk[n].Dir? { NoMoveNoChange(fk[n], Kid(tk, n)); }
        }
      }
      NameByName(fk, tk, "");
      SameKids(Kids(r.1), tk);
    }
  }

  // ---- What ends where ----

  /** Nothing that resolves at the destination changes. */
  lemma {:induction false} DestinationKept(f: Node, t: Option<Node>, p: Path)
    requires t.Some? && Resolve(t.value, p).Some?
    ensures var r := MergeNode(f, t); r.1.Some? && Resolve(r.1.value, p) == Resolve(t.value, p)
    decreases f
  {
    if f.Dir? && t.value.Dir? {
      assert p != [];
      var fk, tk := f.kids, t.value.kids;
      NameByName(fk, tk, p[0]);
      if p[0] in fk && fk[p[0]].Dir? { DestinationKept(fk[p[0]], Kid(tk, p[0]), p[1..]); }
      StepDown(MergeNode(f, t).1.value, p);
      StepDown(t.value, p);
      if p[0] in fk && fk[p[0]].Leaf? { assert Exists(Kid(tk, p[0])) by { ResolvesThrough(tk[p[0]], p[1..]); } }
    }
  }

  lemma StepDown(root: Node, p: Path)
    requires p != [] && root.Dir?
    ensures Get(root, p) == if p[0] in root.kids then Get(root.kids[p[0]], p[1..]) else None
    ensures Resolve(root, p) == if p[0] in root.kids then Resolve(root.kids[p[0]], p[1..]) else None
  {
  }

  lemma ResolvesThrough(root: Node, p: Path)
    requires Resolve(root, p).Some?
    ensures Exists(Some(root))
  {
  }

  ghost predicate IsLeaf(o: Option<Node>) { o.Some? && o.value.Leaf? }

  /**
   * Where no step is refused, every leaf of the source arrives unless something exists at its place, in which case
   * both stay as they were.
   */
  lemma {:induction false} LeavesArrive(f: Node, t: Option<Node>, p: Path)
    requires f.Dir? && !Clash(f, t) && IsLeaf(Get(f, p))
    ensures var r := MergeNode(f, t);
            var at := if t.Some? then Get(t.value, p) else None;
            var left := if r.0.Some? then Get(r.0.value, p) else None;
            if Exists(at) then left == Get(f, p) && Get(r.1.value, p) == at
            else left.None? && Get(r.1.value, p) == Get(f, p)
    decreases f
  {
    assert p != [];
    StepDown(f, p);
    if t.Some? && t.value.Dir? {
      var fk, tk := f.kids, t.value.kids;
      var r := MergeNode(f, t);
      NameByName(fk, tk, p[0]);
      StepDown(r.1.value, p);
      StepDown(t.value, p);
      if r.0.Some? { StepDown(r.0.value, p); }
      if fk[p[0]].Dir? {
        LeavesArrive(fk[p[0]], Kid(tk, p[0]), p[1..]);
      } else {
        LeafPath(fk[p[0]], p[1..]);
        assert p[1..] == [];
      }
    }
  }

  lemma LeafPath(f: Node, p: Path)
    requires f.Leaf? && Get(f, p).Some?
    ensures p == []
  {
  }

  /** Only collisions stay behind, and no directory is left empty. */
  lemma {:induction false} OnlyCollisionsStay(f: Node, t: Option<Node>, p: Path)
    requires f.Dir? && !Clash(f, t)
    requires MergeNode(f, t).0.Some? && Get(MergeNode(f, t).0.value, p).Some?
    ensures match Get(MergeNode(f, t).0.value, p).value
            case Dir(kids) => kids != map[]
            case leaf => Get(f, p) == Some(leaf) && t.Some? && Exists(Get(t.value, p))
    decreases f
  {
    var fk, tk := f.kids, t.value.kids;
    var r := MergeNode(f, t);
    NameByName(fk, tk, "");
    if p != [] {
      NameByName(fk, tk, p[0]);
      StepDown(r.0.value, p);
      StepDown(f, p);
      StepDown(t.value, p);
      if fk[p[0]].Dir? {
        OnlyCollisionsStay(fk[p[0]], Kid(tk, p[0]), p[1..]);
      } else {
        LeafPath(fk[p[0]], p[1..]);
      }
    }
  }

  /** Nothing is made up: every leaf at the destination was there or came from its own place in the source. */
  lemma {:induction false} NothingMadeUp(f: Node, t: Option<Node>, p: Path)
    requires f.Dir? && IsLeaf(Get(MergeNode(f, t).1.value, p))
    ensures var leaf := Get(MergeNode(f, t).1.value, p);
            leaf == Get(f, p) || (t.Some? && leaf == Get(t.value, p))
    decreases f
  {
    if t.Some? && t.value.Dir? {
      var fk, tk := f.kids, t.value.kids;
      var r := MergeNode(f, t);
      assert p != [];
      NameByName(fk, tk, p[0]);
      StepDown(r.1.value, p);
      StepDown(f, p);
      StepDown(t.value, p);
      if p[0] in fk {
        if fk[p[0]].Dir? {
          NothingMadeUp(fk[p[0]], Kid(tk, p[0]), p[1..]);
        }
      }
    }
  }

  // ---- Clash and answer, path by path ----

  function Within(o: Option<Node>, p: Path): Option<Node> { if o.Some? then Get(o.value, p) else None }

  /** At this place a directory of the source meets a link that leads nowhere, or has entries and meets a file. */
  ghost predicate ClashesAt(f: Node, t: Option<Node>, p: Path) {
    && Get(f, p).Some? && Get(f, p).value.Dir? && IsLeaf(Within(t, p))
    && (!Within(t, p).value.resolves || Get(f, p).value.kids != map[])
  }

  lemma WithinStep(o: Option<Node>, p: Path)
    requires p != []
    ensures Within(o, p) == if o.Some? && o.value.Dir? then Within(Kid(o.value.kids, p[0]), p[1..]) else None
  {
  }

  /** A merge is bound to be refused exactly where one of its directories clashes, or a file meets something. */
  lemma {:induction false} ClashExactly(f: Node, t: Option<Node>)
    ensures Clash(f, t) <==> if f.Leaf? then f.resolves && Exists(t) else exists p: Path :: ClashesAt(f, t, p)
    decreases f
  {
    if f.Dir? {
      assert Get(f, []) == Some(f) && Within(t, []) == t;
      if Clash(f, t) {
        if IsLeaf(t) {
          assert ClashesAt(f, t, []);
        } else {
          var n :| n in f.kids && f.kids[n].Dir? && Clash(f.kids[n], Kid(t.value.kids, n));
          ClashExactly(f.kids[n], Kid(t.value.kids, n));
          var p: Path :| ClashesAt(f.kids[n], Kid(t.value.kids, n), p);
          assert ([n] + p)[1..] == p;
          WithinStep(t, [n] + p);
          assert ClashesAt(f, t, [n] + p);
        }
      }
      if p: Path :| ClashesAt(f, t, p) && p != [] {
        WithinStep(t, p);
        var n := p[0];
        ClashExactly(f.kids[n], Kid(t.value.kids, n));
        assert ClashesAt(f.kids[n], Kid(t.value.kids, n), p[1..]);
        assert f.kids[n].Dir?;
      }
    }
  }

  /** Something of the source stands where nothing exists at the destination. */
  ghost predicate MovesAt(f: Node, t: Option<Node>, p: Path) { Get(f, p).Some? && !Exists(Within(t, p)) }

  /** The answer is that something moved exactly if the source holds something whose place at the destination is free. */
  lemma {:induction false} MovesExactly(f: Node, t: Option<Node>)
    requires !Clash(f, t)
    ensures Moves(f, t) <==> (f.Leaf? ==> f.resolves) && exists p: Path :: MovesAt(f, t, p)
    decreases f, 1
  {
    assert Get(f, []) == Some(f) && Within(t, []) == t;
    if !Exists(t) {
      assert MovesAt(f, t, []);
    } else if f.Leaf? {
      forall p: Path | MovesAt(f, t, p) ensures false {
        LeafPath(f, p);
      }
    } else {
      if Moves(f, t) {
        var n :| n in f.kids && MovesEntry(f.kids[n], Kid(t.value.kids, n));
        EntryMoves(f, t, n);
      }
      if p: Path :| MovesAt(f, t, p) && p != [] {
        WithinStep(t, p);
        EntryMovesAt(f, t, p);
      }
    }
  }

  lemma {:induction false} EntryMoves(f: Node, t: Option<Node>, n: Name)
    requires f.Dir? && t.Some? && t.value.Dir? && !Clash(f, t) && n in f.kids && MovesEntry(f.kids[n], Kid(t.value.kids, n))
    ensures exists p: Path :: MovesAt(f, t, p)
    decreases f, 0
  {
    var g, u := f.kids[n], Kid(t.value.kids, n);
    var p: Path := [];
    if g.Dir? {
      MovesExactly(g, u);
      p :| MovesAt(g, u, p);
    } else {
      assert Get(g, []) == Some(g) && Within(u, []) == u;
    }
    assert ([n] + p)[1..] == p;
    WithinStep(t, [n] + p);
    assert MovesAt(f, t, [n] + p);
  }

  lemma {:induction false} EntryMovesAt(f: Node, t: Option<Node>, p: Path)
    requires f.Dir? && t.Some? && Exists(t) && !Clash(f, t) && p != [] && MovesAt(f, t, p)
    ensures Moves(f, t)
    decreases f, 0
  {
    var n := p[0];
    assert n in f.kids;
    if t.value.Dir? {
      var g, u := f.kids[n], Kid(t.value.kids, n);
      WithinStep(t, p);
      if g.Dir? {
        MovesExactly(g, u);
        assert MovesAt(g, u, p[1..]);
      } else {
        LeafPath(g, p[1..]);
      }
      assert MovesEntry(g, u);
    }
  }
}
