/** Directory trees and paths in them, as the object store's folder sees them. */
module FileTree {
  import opened Wrappers

  type Name = string
  type Path = seq<Name>

  /** A leaf is a file, or a symlink to a file; a link whose file has gone does not resolve. */
  datatype Node = Leaf(data: string, resolves: bool) | Dir(kids: map<Name, Node>)

  function Kid(kids: map<Name, Node>, n: Name): Option<Node> { if n in kids then Some(kids[n]) else None }

  function WithKid(kids: map<Name, Node>, n: Name, o: Option<Node>): map<Name, Node> {
    if o.Some? then kids[n := o.value] else kids - {n}
  }

  function Get(root: Node, p: Path): Option<Node>
    decreases |p|
  {
    if p == [] then Some(root)
    else if root.Leaf? || p[0] !in root.kids then None
    else Get(root.kids[p[0]], p[1..])
  }

  /** The path's parent is a directory. */
  predicate CanPut(root: Node, p: Path)
    decreases |p|
  {
    && p != [] && root.Dir?
    && (|p| > 1 ==> p[0] in root.kids && CanPut(root.kids[p[0]], p[1..]))
  }

  function Put(root: Node, p: Path, o: Option<Node>): (r: Node)
    requires CanPut(root, p)
    ensures r.Dir?
    decreases |p|
  {
    if |p| == 1 then Dir(WithKid(root.kids, p[0], o))
    else Dir(root.kids[p[0] := Put(root.kids[p[0]], p[1..], o)])
  }

  /** `existsSync`, which follows links. */
  predicate Exists(o: Option<Node>) { o.Some? && (o.value.Leaf? ==> o.value.resolves) }

  /** A link exists exactly if it leads to a file. */
  lemma ExistsFollowsLinks(data: string, kids: map<Name, Node>)
    ensures !Exists(None) && Exists(Some(Dir(kids))) && Exists(Some(Leaf(data, true))) && !Exists(Some(Leaf(data, false)))
  {
  }

  /** The bytes a key finds. */
  function Resolve(root: Node, p: Path): Option<string> {
    var o := Get(root, p);
    if o.Some? && o.value.Leaf? && o.value.resolves then Some(o.value.data) else None
  }

  /** Neither path leads through the other. */
  predicate Apart(p: Path, q: Path)
    decreases |p|
  {
    p != [] && q != [] && (p[0] != q[0] || Apart(p[1..], q[1..]))
  }

  lemma {:induction false} ApartIsSymmetric(p: Path, q: Path)
    requires Apart(p, q)
    ensures Apart(q, p)
    decreases |p|
  {
    if p[0] == q[0] { ApartIsSymmetric(p[1..], q[1..]); }
  }

  lemma {:induction false} SiblingsApart(base: Path, m: Name, n: Name)
    requires m != n
    ensures Apart(base + [m], base + [n])
  {
    if base != [] {
      SiblingsApart(base[1..], m, n);
      assert (base + [m])[1..] == base[1..] + [m] && (base + [n])[1..] == base[1..] + [n];
    }
  }

  lemma {:induction false} BelowApart(p: Path, q: Path, a: Path, b: Path)
    requires Apart(p, q)
    ensures Apart(p + a, q + b)
    decreases |p|
  {
    if p[0] == q[0] { BelowApart(p[1..], q[1..], a, b); }
    assert (p + a)[1..] == p[1..] + a && (q + b)[1..] == q[1..] + b;
  }

  // ---- Get and Put ----

  lemma {:induction false} GetPutSame(root: Node, p: Path, o: Option<Node>)
    requires CanPut(root, p)
    ensures Get(Put(root, p, o), p) == o
    decreases |p|
  {
    if |p| > 1 {
      GetPutSame(root.kids[p[0]], p[1..], o);
    } else if o.Some? {
      assert Get(o.value, p[1..]) == o;
    }
  }

  lemma {:induction false} GetPutApart(root: Node, p: Path, o: Option<Node>, q: Path)
    requires CanPut(root, p) && Apart(p, q)
    ensures Get(Put(root, p, o), q) == Get(root, q)
    ensures CanPut(root, q) ==> CanPut(Put(root, p, o), q)
    decreases |p|
  {
    if p[0] == q[0] && |p| > 1 { GetPutApart(root.kids[p[0]], p[1..], o, q[1..]); }
  }

  lemma {:induction false} PutPut(root: Node, p: Path, o1: Option<Node>, o2: Option<Node>)
    requires CanPut(root, p)
    ensures CanPut(Put(root, p, o1), p)
    ensures Put(Put(root, p, o1), p, o2) == Put(root, p, o2)
    decreases |p|
  {
    if |p| > 1 {
      PutPut(root.kids[p[0]], p[1..], o1, o2);
      var k := root.kids[p[0]];
      assert root.kids[p[0] := Put(k, p[1..], o1)][p[0] := Put(k, p[1..], o2)] == root.kids[p[0] := Put(k, p[1..], o2)];
    } else {
      assert WithKid(WithKid(root.kids, p[0], o1), p[0], o2) == WithKid(root.kids, p[0], o2);
    }
  }

  lemma {:induction false} PutCommute(root: Node, p: Path, o1: Option<Node>, q: Path, o2: Option<Node>)
    requires CanPut(root, p) && CanPut(root, q) && Apart(p, q)
    ensures CanPut(Put(root, p, o1), q) && CanPut(Put(root, q, o2), p)
    ensures Put(Put(root, p, o1), q, o2) == Put(Put(root, q, o2), p, o1)
    decreases |p|
  {
    GetPutApart(root, p, o1, q);
    ApartIsSymmetric(p, q);
    GetPutApart(root, q, o2, p);
    if p[0] == q[0] {
      PutCommute(root.kids[p[0]], p[1..], o1, q[1..], o2);
      var k := root.kids[p[0]];
      var k1, k2 := Put(k, p[1..], o1), Put(k, q[1..], o2);
      var both := Put(k1, q[1..], o2);
      assert root.kids[p[0] := k1][q[0] := both] == root.kids[q[0] := k2][p[0] := both];
    } else {
      var x := if |p| == 1 then o1 else Some(Put(root.kids[p[0]], p[1..], o1));
      var y := if |q| == 1 then o2 else Some(Put(root.kids[q[0]], q[1..], o2));
      assert WithKid(WithKid(root.kids, p[0], x), q[0], y) == WithKid(WithKid(root.kids, q[0], y), p[0], x);
    }
  }

  lemma {:induction false} PutGet(root: Node, p: Path)
    requires CanPut(root, p)
    ensures Put(root, p, Get(root, p)) == root
    decreases |p|
  {
    if |p| > 1 {
      PutGet(root.kids[p[0]], p[1..]);
      assert root.kids[p[0] := root.kids[p[0]]] == root.kids;
    } else {
      assert Get(root, p) == Kid(root.kids, p[0]) by {
        if p[0] in root.kids { assert Get(root.kids[p[0]], p[1..]) == Some(root.kids[p[0]]); }
      }
      assert WithKid(root.kids, p[0], Kid(root.kids, p[0])) == root.kids;
    }
  }

  /** Changing an entry of a directory is changing the directory. */
  lemma {:induction false} PutBelow(root: Node, p: Path, n: Name, o: Option<Node>)
    requires CanPut(root, p) && Get(root, p).Some? && Get(root, p).value.Dir?
    ensures CanPut(root, p + [n])
    ensures Get(root, p + [n]) == Kid(Get(root, p).value.kids, n)
    ensures Put(root, p + [n], o) == Put(root, p, Some(Dir(WithKid(Get(root, p).value.kids, n, o))))
    decreases |p|
  {
    var k := root.kids[p[0]];
    assert (p + [n])[1..] == p[1..] + [n];
    if |p| > 1 {
      PutBelow(k, p[1..], n, o);
    } else {
      assert p[1..] + [n] == [n] && Get(root, p) == Some(k);
      if n in k.kids { assert Get(k, [n]) == Get(k.kids[n], []); }
    }
  }

  lemma {:induction false} GetAppend(root: Node, p: Path, q: Path)
    ensures Get(root, p + q) == if Get(root, p).Some? then Get(Get(root, p).value, q) else None
    decreases |p|
  {
    if p == [] {
      assert p + q == q;
    } else {
      assert (p + q)[1..] == p[1..] + q;
      if root.Dir? && p[0] in root.kids { GetAppend(root.kids[p[0]], p[1..], q); }
    }
  }

  // ---- Two subtrees at once ----

  predicate CanPut2(root: Node, p: Path, q: Path) { CanPut(root, p) && CanPut(root, q) && Apart(p, q) }

  function Put2(root: Node, p: Path, x: Option<Node>, q: Path, y: Option<Node>): Node
    requires CanPut2(root, p, q)
  {
    GetPutApart(root, p, x, q);
    Put(Put(root, p, x), q, y)
  }

  lemma Put2Facts(root: Node, p: Path, x: Option<Node>, q: Path, y: Option<Node>)
    requires CanPut2(root, p, q)
    ensures var r := Put2(root, p, x, q, y);
            CanPut2(r, p, q) && Get(r, p) == x && Get(r, q) == y
  {
    PutCommute(root, p, x, q, y);
    var px, qy := Put(root, p, x), Put(root, q, y);
    GetPutSame(px, q, y);
    GetPutSame(qy, p, x);
    PutPut(px, q, y, None);
    PutPut(qy, p, x, None);
  }

  lemma Put2Again(root: Node, p: Path, x1: Option<Node>, q: Path, y1: Option<Node>, x2: Option<Node>, y2: Option<Node>)
    requires CanPut2(root, p, q)
    ensures CanPut2(Put2(root, p, x1, q, y1), p, q)
    ensures Put2(Put2(root, p, x1, q, y1), p, x2, q, y2) == Put2(root, p, x2, q, y2)
  {
    Put2Facts(root, p, x1, q, y1);
    var px := Put(root, p, x1);
    GetPutApart(root, p, x1, q);
    PutCommute(root, p, x1, q, y1);
    var qy := Put(root, q, y1);
    PutPut(qy, p, x1, x2);
    ApartIsSymmetric(p, q);
    GetPutApart(root, q, y1, p);
    PutCommute(root, q, y1, p, x2);
    PutPut(Put(root, p, x2), q, y1, y2);
  }

  lemma Put2Same(root: Node, p: Path, q: Path)
    requires CanPut2(root, p, q)
    ensures Put2(root, p, Get(root, p), q, Get(root, q)) == root
  {
    PutGet(root, p);
    PutGet(root, q);
  }

  lemma Put2Below(root: Node, p: Path, q: Path, n: Name, x: Option<Node>, y: Option<Node>)
    requires CanPut2(root, p, q)
    requires Get(root, p).Some? && Get(root, p).value.Dir? && Get(root, q).Some? && Get(root, q).value.Dir?
    ensures CanPut2(root, p + [n], q + [n])
    ensures Put2(root, p + [n], x, q + [n], y)
         == Put2(root, p, Some(Dir(WithKid(Get(root, p).value.kids, n, x))), q, Some(Dir(WithKid(Get(root, q).value.kids, n, y))))
  {
    PutBelow(root, p, n, x);
    PutBelow(root, q, n, y);
    BelowApart(p, q, [n], [n]);
    var r := Put(root, p + [n], x);
    GetPutApart(root, p, Some(Dir(WithKid(Get(root, p).value.kids, n, x))), q);
    PutBelow(r, q, n, y);
  }

  lemma PutGetApart(root: Node, p: Path, o: Option<Node>, q: Path)
    requires CanPut2(root, p, q)
    ensures Put2(root, p, o, q, Get(root, q)) == Put(root, p, o)
  {
    GetPutApart(root, p, o, q);
    PutGet(Put(root, p, o), q);
  }
}
