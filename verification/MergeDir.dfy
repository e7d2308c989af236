/** `mergeDir`, step by step on a folder that may be left at any step. */
module MergeDir {
  import opened Wrappers
  import opened FileTree
  import opened Merge

  /** Done, with the function's answer; refused by the file system, which throws; or the machine stopped. */
  datatype Outcome = Done(moved: bool) | Refused | Stopped

  /** How many more renames and removals the machine will make before it stops; None if it does not. */
  type Budget = Option<nat>

  function Merged(root: Node, from: Path, to: Path): Node
    requires CanPut2(root, from, to)
  {
    var r := MergeAll(Get(root, from), Get(root, to));
    Put2(root, from, r.0, to, r.1)
  }

  /** `now` is `was` with the two subtrees somewhere on their way to where `mergeDir` takes them. */
  ghost predicate UnderWay(was: Node, now: Node, from: Path, to: Path) {
    && CanPut2(was, from, to) && CanPut2(now, from, to)
    && now == Put2(was, from, Get(now, from), to, Get(now, to))
    && MergeAll(Get(now, from), Get(now, to)) == MergeAll(Get(was, from), Get(was, to))
  }

  /** The same for one name of two directories. */
  ghost predicate NameUnderWay(was: Node, now: Node, from: Path, to: Path) {
    && CanPut2(was, from, to) && CanPut2(now, from, to)
    && now == Put2(was, from, Get(now, from), to, Get(now, to))
    && MergeName(Get(now, from), Get(now, to)) == MergeName(Get(was, from), Get(was, to))
  }

  function NodeAt(root: Node, p: Path): Node {
    if Get(root, p).Some? then Get(root, p).value else Leaf("", false)
  }

  lemma Untouched(root: Node, from: Path, to: Path)
    requires CanPut2(root, from, to)
    ensures UnderWay(root, root, from, to) && NameUnderWay(root, root, from, to)
  {
    Put2Same(root, from, to);
  }

  lemma Replaced(root: Node, x: Option<Node>, y: Option<Node>, from: Path, to: Path)
    requires CanPut2(root, from, to)
    ensures var now := Put2(root, from, x, to, y);
            && CanPut2(now, from, to) && Get(now, from) == x && Get(now, to) == y
            && (MergeAll(x, y) == MergeAll(Get(root, from), Get(root, to)) ==> UnderWay(root, now, from, to))
            && (MergeName(x, y) == MergeName(Get(root, from), Get(root, to)) ==> NameUnderWay(root, now, from, to))
  {
    Put2Facts(root, from, x, to, y);
  }

  lemma MergedIsFinal(root: Node, now: Node, from: Path, to: Path)
    requires UnderWay(root, now, from, to)
    ensures Merged(now, from, to) == Merged(root, from, to)
  {
    var r := MergeAll(Get(root, from), Get(root, to));
    Put2Again(root, from, Get(now, from), to, Get(now, to), r.0, r.1);
  }

  /** However many runs were cut short one after another. */
  lemma UnderWayTwice(root: Node, mid: Node, now: Node, from: Path, to: Path)
    requires UnderWay(root, mid, from, to) && UnderWay(mid, now, from, to)
    ensures UnderWay(root, now, from, to)
  {
    Put2Again(root, from, Get(mid, from), to, Get(mid, to), Get(now, from), Get(now, to));
  }

  // ---- The loop over the names of a directory ----

  /** The names outside `todo` are merged, the others are as they were. */
  ghost predicate Partly(fk0: map<Name, Node>, tk0: map<Name, Node>, fk: map<Name, Node>, tk: map<Name, Node>, todo: set<Name>) {
    forall n :: (Kid(fk, n), Kid(tk, n)) ==
      if n in todo then (Kid(fk0, n), Kid(tk0, n)) else MergeName(Kid(fk0, n), Kid(tk0, n))
  }

  lemma PartlyUnderWay(fk0: map<Name, Node>, tk0: map<Name, Node>, fk: map<Name, Node>, tk: map<Name, Node>, todo: set<Name>)
    requires Partly(fk0, tk0, fk, tk, todo)
    ensures MergeNode(Dir(fk), Some(Dir(tk))) == MergeNode(Dir(fk0), Some(Dir(tk0)))
  {
    forall n ensures MergeName(Kid(fk, n), Kid(tk, n)) == MergeName(Kid(fk0, n), Kid(tk0, n)) {
      if n !in todo && n in fk0 { EntryIsIdempotent(fk0[n], Kid(tk0, n)); }
    }
    SameMerge(fk, tk, fk0, tk0);
  }

  /** Changing name `n` to something that still merges to the same leaves the directories under way. */
  lemma PartlyStopped(fk0: map<Name, Node>, tk0: map<Name, Node>, fk: map<Name, Node>, tk: map<Name, Node>, todo: set<Name>,
      n: Name, x: Option<Node>, y: Option<Node>)
    requires Partly(fk0, tk0, fk, tk, todo) && n in todo
    requires MergeName(x, y) == MergeName(Kid(fk0, n), Kid(tk0, n))
    ensures MergeNode(Dir(WithKid(fk, n, x)), Some(Dir(WithKid(tk, n, y)))) == MergeNode(Dir(fk0), Some(Dir(tk0)))
  {
    var fk1, tk1 := WithKid(fk, n, x), WithKid(tk, n, y);
    forall m ensures MergeName(Kid(fk1, m), Kid(tk1, m)) == MergeName(Kid(fk0, m), Kid(tk0, m)) {
      assert m == n ==> Kid(fk1, m) == x && Kid(tk1, m) == y;
      assert m != n ==> Kid(fk1, m) == Kid(fk, m) && Kid(tk1, m) == Kid(tk, m);
      if m !in todo && m in fk0 { EntryIsIdempotent(fk0[m], Kid(tk0, m)); }
    }
    SameMerge(fk1, tk1, fk0, tk0);
  }

  lemma PartlyNext(fk0: map<Name, Node>, tk0: map<Name, Node>, fk: map<Name, Node>, tk: map<Name, Node>, todo: set<Name>, n: Name,
      x: Option<Node>, y: Option<Node>)
    requires Partly(fk0, tk0, fk, tk, todo) && n in todo
    requires (x, y) == MergeName(Kid(fk0, n), Kid(tk0, n))
    ensures Partly(fk0, tk0, WithKid(fk, n, x), WithKid(tk, n, y), todo - {n})
  {
  }

  /** With no name left to do, removing the source if it is empty completes the merge. */
  lemma PartlyDone(fk0: map<Name, Node>, tk0: map<Name, Node>, fk: map<Name, Node>, tk: map<Name, Node>)
    requires Partly(fk0, tk0, fk, tk, {})
    ensures MergeNode(Dir(fk0), Some(Dir(tk0))) == (if fk == map[] then None else Some(Dir(fk)), Some(Dir(tk)))
  {
    var r := MergeNode(Dir(fk0), Some(Dir(tk0)));
    NameByName(fk0, tk0, "");
    forall n ensures Kid(fk, n) == Kid(Kids(r.0), n) && Kid(tk, n) == Kid(Kids(r.1), n) {
      NameByName(fk0, tk0, n);
    }
    SameKids(fk, Kids(r.0));
    SameKids(tk, Kids(r.1));
  }

  ghost predicate Looping(was: Node, now: Node, from: Path, to: Path,
      fk0: map<Name, Node>, tk0: map<Name, Node>, fk: map<Name, Node>, tk: map<Name, Node>, todo: set<Name>) {
    && CanPut2(was, from, to) && Get(was, from) == Some(Dir(fk0)) && Get(was, to) == Some(Dir(tk0))
    && now == Put2(was, from, Some(Dir(fk)), to, Some(Dir(tk)))
    && Partly(fk0, tk0, fk, tk, todo)
  }

  lemma EnterName(was: Node, now: Node, from: Path, to: Path,
      fk0: map<Name, Node>, tk0: map<Name, Node>, fk: map<Name, Node>, tk: map<Name, Node>, todo: set<Name>, n: Name)
    requires Looping(was, now, from, to, fk0, tk0, fk, tk, todo) && n in todo
    ensures CanPut2(now, from + [n], to + [n])
    ensures Get(now, from + [n]) == Kid(fk0, n) && Get(now, to + [n]) == Kid(tk0, n)
  {
    Put2Facts(was, from, Some(Dir(fk)), to, Some(Dir(tk)));
    assert (Kid(fk, n), Kid(tk, n)) == (Kid(fk0, n), Kid(tk0, n));
    Put2Below(now, from, to, n, None, None);
    PutBelow(now, from, n, None);
    PutBelow(now, to, n, None);
  }

  lemma LeaveName(was: Node, before: Node, now: Node, from: Path, to: Path,
      fk0: map<Name, Node>, tk0: map<Name, Node>, fk: map<Name, Node>, tk: map<Name, Node>, todo: set<Name>, n: Name)
    requires Looping(was, before, from, to, fk0, tk0, fk, tk, todo) && n in todo
    requires NameUnderWay(before, now, from + [n], to + [n])
    ensures var x, y := Get(now, from + [n]), Get(now, to + [n]);
            var fk1, tk1 := WithKid(fk, n, x), WithKid(tk, n, y);
            && UnderWay(was, now, from, to)
            && Get(now, from) == Some(Dir(fk1)) && Get(now, to) == Some(Dir(tk1))
            && ((x, y) == MergeName(Kid(fk0, n), Kid(tk0, n)) ==> Looping(was, now, from, to, fk0, tk0, fk1, tk1, todo - {n}))
  {
    var x, y := Get(now, from + [n]), Get(now, to + [n]);
    var fk1, tk1 := WithKid(fk, n, x), WithKid(tk, n, y);
    EnterName(was, before, from, to, fk0, tk0, fk, tk, todo, n);
    Put2Facts(was, from, Some(Dir(fk)), to, Some(Dir(tk)));
    Put2Below(before, from, to, n, x, y);
    Put2Again(was, from, Some(Dir(fk)), to, Some(Dir(tk)), Some(Dir(fk1)), Some(Dir(tk1)));
    PartlyStopped(fk0, tk0, fk, tk, todo, n, x, y);
    Replaced(was, Some(Dir(fk1)), Some(Dir(tk1)), from, to);
    if (x, y) == MergeName(Kid(fk0, n), Kid(tk0, n)) {
      PartlyNext(fk0, tk0, fk, tk, todo, n, x, y);
    }
  }

  /** The names outside `todo` have not clashed, and `moved` says whether any of them moved. */
  ghost predicate Tallied(fk0: map<Name, Node>, tk0: map<Name, Node>, todo: set<Name>, moved: bool) {
    && (moved <==> exists n :: n in fk0 && n !in todo && MovesEntry(fk0[n], Kid(tk0, n)))
    && (forall n :: n in fk0 && n !in todo ==> !(fk0[n].Dir? && Clash(fk0[n], Kid(tk0, n))))
  }

  lemma TallyNext(fk0: map<Name, Node>, tk0: map<Name, Node>, todo: set<Name>, moved: bool, n: Name, one: bool)
    requires Tallied(fk0, tk0, todo, moved) && n in fk0 && n in todo
    requires one == MovesEntry(fk0[n], Kid(tk0, n)) && !(fk0[n].Dir? && Clash(fk0[n], Kid(tk0, n)))
    ensures Tallied(fk0, tk0, todo - {n}, moved || one)
  {
  }

  class Disk {
    var root: Node
    var budget: Budget

    constructor (root: Node, budget: Budget)
      ensures this.root == root && this.budget == budget
    {
      this.root, this.budget := root, budget;
    }

    /** Whether there is one more step; a step that changes the folder takes one. */
    method Step() returns (ok: bool)
      modifies this`budget
      ensures old(budget).None? ==> ok && budget.None?
      ensures old(budget).Some? ==> budget.Some?
    {
      if budget == Some(0) { return false; }
      if budget.Some? { budget := Some(budget.value - 1); }
      ok := true;
    }

    /** `renameSync` onto a name that does not exist, or is a link whose file has gone. */
    method Rename(from: Path, to: Path) returns (ok: bool)
      requires CanPut(root, from) && Apart(from, to) && Get(root, from).Some? && !Exists(Get(root, to))
      modifies this`root
      ensures ok <==> CanPut(old(root), to) && (Get(old(root), to).None? || Get(old(root), from).value.Leaf?)
      ensures root == if ok then Put2(old(root), from, None, to, Get(old(root), from)) else old(root)
    {
      var node := Get(root, from);
      if !CanPut(root, to) || (Get(root, to).Some? && node.value.Dir?) { return false; }
      GetPutApart(root, from, None, to);
      root := Put(Put(root, from, None), to, node);
      ok := true;
    }

    /** `rmdirSync` of an empty directory. */
    method Remove(dir: Path)
      requires CanPut(root, dir) && Get(root, dir) == Some(Dir(map[]))
      modifies this`root
      ensures root == Put(old(root), dir, None)
    {
      root := Put(root, dir, None);
    }

    method MergeDir(from: Path, to: Path) returns (outcome: Outcome)
      requires CanPut2(root, from, to)
      modifies this
      // Wherever it stops, a later run ends where this one would have, and nothing else in the folder has changed.
      ensures UnderWay(old(root), root, from, to)
      ensures outcome.Done? ==> root == old(Merged(root, from, to))
      ensures outcome.Done? ==> outcome.moved == old(MovesAll(Get(root, from), Get(root, to)))
      ensures outcome.Done? ==> !old(ClashAll(Get(root, from), Get(root, to)))
      ensures outcome.Refused? ==> old(ClashAll(Get(root, from), Get(root, to)))
      ensures old(budget).None? ==> budget.None? && !outcome.Stopped?
      decreases NodeAt(root, from), 1
    {
      ghost var was := root;
      Untouched(root, from, to);
      if !Exists(Get(root, from)) { return Done(false); }
      if !Exists(Get(root, to)) {
        var go := Step();
        if !go { return Stopped; }
        var ok := Rename(from, to);
        Replaced(was, None, Get(was, from), from, to);
        return if ok then Done(true) else Refused;
      }
      if Get(root, from).value.Leaf? { return Refused; }
      var todo := Get(root, from).value.kids.Keys;
      if Get(root, to).value.Leaf? {
        // Every target is below a file, so the first rename is refused.
        if todo != {} { return Refused; }
        var go := Step();
        if !go { return Stopped; }
        Remove(from);
        Replaced(was, None, Get(was, to), from, to);
        PutGetApart(was, from, None, to);
        return Done(false);
      }
      outcome := MergeNames(from, to);
      if !outcome.Done? { return; }
      ghost var fk, tk := Get(root, from).value.kids, Get(root, to).value.kids;
      PartlyDone(Get(was, from).value.kids, Get(was, to).value.kids, fk, tk);
      if Get(root, from).value.kids == map[] {
        var go := Step();
        if !go { return Stopped; }
        ghost var before := root;
        Remove(from);
        PutGetApart(before, from, None, to);
        Put2Again(was, from, Some(Dir(fk)), to, Some(Dir(tk)), None, Some(Dir(tk)));
        MergeIsIdempotent(Get(was, from).value, Get(was, to));
        Replaced(was, None, Some(Dir(tk)), from, to);
      }
    }

    /** The loop over the names of a source directory that meets a directory. */
    method MergeNames(from: Path, to: Path) returns (outcome: Outcome)
      requires CanPut2(root, from, to) && NodeAt(root, from).Dir? && NodeAt(root, to).Dir?
      modifies this
      ensures UnderWay(old(root), root, from, to)
      ensures NodeAt(root, from).Dir? && NodeAt(root, to).Dir?
      ensures outcome.Done? ==> Partly(old(NodeAt(root, from)).kids, old(NodeAt(root, to)).kids,
                                       NodeAt(root, from).kids, NodeAt(root, to).kids, {})
      ensures outcome.Done? ==> outcome.moved == old(MovesAll(Get(root, from), Get(root, to)))
      ensures outcome.Done? ==> !old(ClashAll(Get(root, from), Get(root, to)))
      ensures outcome.Refused? ==> old(ClashAll(Get(root, from), Get(root, to)))
      ensures old(budget).None? ==> budget.None? && !outcome.Stopped?
      decreases NodeAt(root, from), 0
    {
      ghost var was := root;
      ghost var fk0, tk0 := NodeAt(root, from).kids, NodeAt(root, to).kids;
      ghost var fk, tk := fk0, tk0;
      Untouched(root, from, to);
      var moved := false;
      var todo := NodeAt(root, from).kids.Keys;
      while todo != {}
        invariant todo <= fk0.Keys
        invariant Looping(was, root, from, to, fk0, tk0, fk, tk, todo)
        invariant Tallied(fk0, tk0, todo, moved)
        invariant old(budget).None? ==> budget.None?
        decreases todo
      {
        var n :| n in todo;
        ghost var before := root;
        EnterName(was, before, from, to, fk0, tk0, fk, tk, todo, n);
        outcome := MergeOne(from + [n], to + [n]);
        LeaveName(was, before, root, from, to, fk0, tk0, fk, tk, todo, n);
        if !outcome.Done? { return; }
        ghost var x, y := Get(root, from + [n]), Get(root, to + [n]);
        fk, tk := WithKid(fk, n, x), WithKid(tk, n, y);
        TallyNext(fk0, tk0, todo, moved, n, outcome.moved);
        moved := moved || outcome.moved;
        todo := todo - {n};
      }
      PartlyUnderWay(fk0, tk0, fk, tk, {});
      Replaced(was, Some(Dir(fk)), Some(Dir(tk)), from, to);
      outcome := Done(moved);
    }

    /** The body of the loop, for one name. */
    method MergeOne(source: Path, target: Path) returns (outcome: Outcome)
      requires CanPut2(root, source, target) && Get(root, source).Some?
      modifies this
      ensures NameUnderWay(old(root), root, source, target)
      ensures outcome.Done? ==> (Get(root, source), Get(root, target)) == old(MergeName(Get(root, source), Get(root, target)))
      ensures outcome.Done? ==> outcome.moved == old(MovesEntry(Get(root, source).value, Get(root, target)))
      ensures outcome.Done? ==> !ClashEntry(old(Get(root, source)), old(Get(root, target)))
      ensures outcome.Refused? ==> ClashEntry(old(Get(root, source)), old(Get(root, target)))
      ensures old(budget).None? ==> budget.None? && !outcome.Stopped?
      decreases NodeAt(root, source), 2
    {
      ghost var was := root;
      Untouched(root, source, target);
      if Get(root, source).value.Dir? && Exists(Get(root, target)) {
        outcome := MergeDir(source, target);
        ghost var r := MergeAll(Get(was, source), Get(was, target));
        Replaced(was, r.0, r.1, source, target);
      } else if !Exists(Get(root, target)) {
        var go := Step();
        if !go { return Stopped; }
        var ok := Rename(source, target);
        Replaced(was, None, Get(was, source), source, target);
        outcome := if ok then Done(true) else Refused;
      } else {
        outcome := Done(false);
      }
    }
  }
}
