/** The co-edit guard: a syntactic test on action patterns, and the languages it stands for. */
module Guard {
  import opened Wrappers

  // ---- Patterns ----

  /** Pattern matching as IAM defines it: `*` any string, `?` any one character. */
  predicate Glob(p: string, s: string)
    decreases |p| + |s|
  {
    if p == "" then s == ""
    else if p[0] == '*' then Glob(p[1..], s) || (s != "" && Glob(p, s[1..]))
    else s != "" && (p[0] == '?' || p[0] == s[0]) && Glob(p[1..], s[1..])
  }

  /** `actionMatches` */
  predicate ActionMatches(allowed: string, wanted: string) {
    || allowed == wanted
    || allowed == "*"
    || (allowed != "" && allowed[|allowed| - 1] == '*' && allowed[..|allowed| - 1] <= wanted)
  }

  lemma {:induction false} GlobAppend(p: string, s: string, q: string, t: string)
    requires Glob(p, s) && Glob(q, t)
    ensures Glob(p + q, s + t)
    decreases |p| + |s|
  {
    if p == "" {
      assert p + q == q && s + t == t;
    } else {
      assert (p + q)[1..] == p[1..] + q;
      if s != "" { assert (s + t)[1..] == s[1..] + t; }
      if p[0] == '*' {
        if Glob(p[1..], s) { GlobAppend(p[1..], s, q, t); } else { GlobAppend(p, s[1..], q, t); }
      } else {
        GlobAppend(p[1..], s[1..], q, t);
      }
    }
  }

  lemma {:induction false} GlobSplit(p: string, q: string, s: string) returns (k: nat)
    requires Glob(p + q, s)
    ensures k <= |s| && Glob(p, s[..k]) && Glob(q, s[k..])
    decreases |p| + |s|
  {
    if p == "" {
      assert p + q == q;
      k := 0;
    } else {
      assert (p + q)[1..] == p[1..] + q;
      if p[0] == '*' && Glob((p + q)[1..], s) {
        k := GlobSplit(p[1..], q, s);
      } else {
        var p1 := if p[0] == '*' then p else p[1..];
        k := GlobSplit(p1, q, s[1..]);
        k := k + 1;
        assert s[..k][1..] == s[1..][..k - 1] && s[k..] == s[1..][k - 1..];
      }
    }
  }

  lemma {:induction false} StarMatchesAll(s: string)
    ensures Glob("*", s)
  {
    if s != "" { StarMatchesAll(s[1..]); }
  }

  /** A match of the patterns as text is an inclusion of what they match, wherever their wildcards stand. */
  lemma {:induction false} MatchIsInclusion(a: string, w: string, s: string)
    requires ActionMatches(a, w) && Glob(w, s)
    ensures Glob(a, s)
  {
    if a == "*" {
      StarMatchesAll(s);
    } else if a != w {
      var p := a[..|a| - 1];
      assert w == p + w[|p|..];
      var k := GlobSplit(p, w[|p|..], s);
      StarMatchesAll(s[k..]);
      GlobAppend(p, s[..k], "*", s[k..]);
      assert s == s[..k] + s[k..] && a == p + "*";
    }
  }

  // ---- Where the test is exact ----

  predicate IsWild(c: char) { c == '*' || c == '?' }

  predicate Plain(p: string) { forall i :: 0 <= i < |p| ==> !IsWild(p[i]) }

  /** No wildcard but, possibly, a `*` at the end. */
  predicate TrailingOnly(a: string) {
    Plain(a) || (a != "" && a[|a| - 1] == '*' && Plain(a[..|a| - 1]))
  }

  lemma {:induction false} PlainMatchesItself(p: string, s: string)
    requires Plain(p)
    ensures Glob(p, s) <==> s == p
    decreases |p|
  {
    if p != "" && s != "" {
      PlainMatchesItself(p[1..], s[1..]);
      assert p == [p[0]] + p[1..] && s == [s[0]] + s[1..];
    }
  }

  lemma {:induction false} PlainThenStar(p: string, s: string)
    requires Plain(p) && Glob(p + "*", s)
    ensures p <= s
  {
    var k := GlobSplit(p, "*", s);
    PlainMatchesItself(p, s[..k]);
  }

  /** The pattern with `c` in the place of every wildcard. */
  function Filled(w: string, c: char): (s: string)
    ensures |s| == |w| && forall i :: 0 <= i < |w| ==> s[i] == if IsWild(w[i]) then c else w[i]
  {
    seq(|w|, i requires 0 <= i < |w| => if IsWild(w[i]) then c else w[i])
  }

  lemma {:induction false} FilledMatches(w: string, c: char)
    ensures Glob(w, Filled(w, c))
    decreases |w|
  {
    if w != "" {
      FilledMatches(w[1..], c);
      var s := Filled(w, c);
      assert s[1..] == Filled(w[1..], c);
      if w[0] == '*' {
        assert Glob(w[1..], s[1..]);
        assert Glob(w, s[1..]);
      }
    }
  }

  /** One well-chosen action tells whether a pattern with at most a trailing `*` covers another. */
  lemma FilledDecides(a: string, w: string, c: char)
    requires TrailingOnly(a) && c !in a
    ensures Glob(a, Filled(w, c)) <==> ActionMatches(a, w)
  {
    var s := Filled(w, c);
    FilledMatches(w, c);
    if ActionMatches(a, w) { MatchIsInclusion(a, w, s); }
    if Glob(a, s) {
      if Plain(a) {
        PlainMatchesItself(a, s);
        assert forall i :: 0 <= i < |w| ==> s[i] == a[i];
        assert s == w;
      } else {
        var p := a[..|a| - 1];
        assert a == p + "*";
        PlainThenStar(p, s);
        forall i | 0 <= i < |p| ensures p[i] == w[i] {
          assert s[i] == p[i] && p[i] == a[i];
        }
        assert p <= w;
      }
    }
  }

  /** `actionPermittedByBoundary` */
  ghost predicate Permitted(action: string, allowed: set<string>) {
    exists a :: a in allowed && ActionMatches(a, action)
  }

  /** Every action the pattern matches is matched by some allowed pattern. */
  ghost predicate Covered(w: string, allowed: set<string>) {
    forall s :: Glob(w, s) ==> exists a :: a in allowed && Glob(a, s)
  }

  lemma PermittedIsCovered(w: string, allowed: set<string>)
    requires Permitted(w, allowed)
    ensures Covered(w, allowed)
  {
    var a :| a in allowed && ActionMatches(a, w);
    forall s | Glob(w, s) ensures exists b :: b in allowed && Glob(b, s) {
      MatchIsInclusion(a, w, s);
    }
  }

  /**
   * Where every allowed pattern has at most a trailing `*`, and some character occurs in none of them, the test is
   * exact, even against all of them together.
   */
  lemma PermittedIsExact(w: string, allowed: set<string>, c: char)
    requires forall a :: a in allowed ==> TrailingOnly(a) && c !in a
    ensures Permitted(w, allowed) <==> Covered(w, allowed)
  {
    if Permitted(w, allowed) { PermittedIsCovered(w, allowed); }
    if Covered(w, allowed) {
      FilledMatches(w, c);
      var a :| a in allowed && Glob(a, Filled(w, c));
      FilledDecides(a, w, c);
    }
  }

  /** With a wildcard before its end, a pattern covers plain actions that the test refuses. */
  lemma InnerWildcardIsRefused(p: string, middle: string, q: string)
    requires Plain(p) && Plain(middle) && Plain(q) && q != ""
    ensures var a, w := p + ("*" + q), p + (middle + q);
            Covered(w, {a}) && !Permitted(w, {a})
  {
    var a, w := p + ("*" + q), p + (middle + q);
    assert a[|p|] == '*' && a[|a| - 1] == q[|q| - 1];
    assert Plain(w);
    PlainMatchesItself(p, p);
    PlainMatchesItself(q, q);
    StarMatchesAll(middle);
    GlobAppend("*", middle, q, q);
    GlobAppend(p, p, "*" + q, middle + q);
    forall s | Glob(w, s) ensures exists b :: b in {a} && Glob(b, s) {
      PlainMatchesItself(w, s);
    }
    if |w| > |p| { assert a == w ==> IsWild(w[|p|]); }
  }

  // ---- Statements ----

  datatype Effect = Allow | Deny

  /** A statement names actions, or names the actions it leaves out. */
  datatype Statement = Statement(sid: Option<string>, effect: Effect, action: seq<string>, notAction: Option<seq<string>>)

  ghost predicate AnyGlob(patterns: seq<string>, s: string) { exists p :: p in patterns && Glob(p, s) }

  ghost predicate Applies(st: Statement, s: string) {
    AnyGlob(st.action, s) || (st.notAction.Some? && !AnyGlob(st.notAction.value, s))
  }

  ghost predicate Says(sts: seq<Statement>, effect: Effect, s: string) {
    exists st :: st in sts && st.effect == effect && Applies(st, s)
  }

  /** What a policy document permits, resources and conditions aside. */
  ghost predicate Grants(sts: seq<Statement>, s: string) { Says(sts, Allow, s) && !Says(sts, Deny, s) }

  function AllowedIn(boundary: seq<Statement>): set<string> {
    set st, a | st in boundary && st.effect == Allow && a in st.action :: a
  }

  datatype Missing = Missing(sid: Option<string>, action: string)

  ghost function MissingOf(sid: Option<string>, actions: seq<string>, allowed: set<string>): seq<Missing> {
    if actions == [] then []
    else
      var last := actions[|actions| - 1];
      MissingOf(sid, actions[..|actions| - 1], allowed) + if Permitted(last, allowed) then [] else [Missing(sid, last)]
  }

  ghost function MissingIn(policy: seq<Statement>, allowed: set<string>): seq<Missing> {
    if policy == [] then []
    else
      var st := policy[|policy| - 1];
      MissingIn(policy[..|policy| - 1], allowed) + if st.effect == Allow then MissingOf(st.sid, st.action, allowed) else []
  }

  method BoundaryAllowedActions(boundary: seq<Statement>) returns (out: set<string>)
    ensures out == AllowedIn(boundary)
  {
    out := {};
    for i := 0 to |boundary|
      invariant out == AllowedIn(boundary[..i])
    {
      var stmt := boundary[i];
      assert boundary[..i + 1] == boundary[..i] + [stmt];
      if stmt.effect == Allow {
        ghost var before := out;
        for k := 0 to |stmt.action|
          invariant out == before + set a | a in stmt.action[..k]
        {
          out := out + {stmt.action[k]};
        }
        assert stmt.action[..|stmt.action|] == stmt.action;
      }
    }
    assert boundary[..|boundary|] == boundary;
  }

  method ActionPermittedByBoundary(action: string, allowed: set<string>) returns (yes: bool)
    ensures yes <==> Permitted(action, allowed)
  {
    var todo := allowed;
    while todo != {}
      invariant todo <= allowed
      invariant forall a :: a in allowed - todo ==> !ActionMatches(a, action)
      decreases todo
    {
      var a :| a in todo;
      if ActionMatches(a, action) { return true; }
      todo := todo - {a};
    }
    yes := false;
  }

  /** `checkPair`: the list is in the order of the statements and their actions. */
  method CheckPair(policy: seq<Statement>, boundary: seq<Statement>) returns (missing: seq<Missing>)
    ensures missing == MissingIn(policy, AllowedIn(boundary))
  {
    var allowed := BoundaryAllowedActions(boundary);
    missing := [];
    for i := 0 to |policy|
      invariant missing == MissingIn(policy[..i], allowed)
    {
      var stmt := policy[i];
      assert policy[..i + 1][..i] == policy[..i];
      if stmt.effect == Allow {
        ghost var before := missing;
        for k := 0 to |stmt.action|
          invariant missing == before + MissingOf(stmt.sid, stmt.action[..k], allowed)
        {
          assert stmt.action[..k + 1][..k] == stmt.action[..k];
          var yes := ActionPermittedByBoundary(stmt.action[k], allowed);
          if !yes { missing := missing + [Missing(stmt.sid, stmt.action[k])]; }
        }
        assert stmt.action[..|stmt.action|] == stmt.action;
      }
    }
    assert policy[..|policy|] == policy;
  }

  // ---- What the list holds ----

  lemma {:induction false} MissingOfExactly(sid: Option<string>, actions: seq<string>, allowed: set<string>, m: Missing)
    ensures m in MissingOf(sid, actions, allowed) <==> m.sid == sid && m.action in actions && !Permitted(m.action, allowed)
  {
    if actions != [] {
      MissingOfExactly(sid, actions[..|actions| - 1], allowed, m);
      assert actions == actions[..|actions| - 1] + [actions[|actions| - 1]];
    }
  }

  /** An action is listed, under its statement's name, exactly if an Allow statement names it and no pattern permits it. */
  lemma {:induction false} MissingExactly(policy: seq<Statement>, allowed: set<string>, m: Missing)
    ensures m in MissingIn(policy, allowed) <==>
      exists st :: st in policy && st.effect == Allow && m.sid == st.sid && m.action in st.action && !Permitted(m.action, allowed)
  {
    if policy != [] {
      var st := policy[|policy| - 1];
      MissingExactly(policy[..|policy| - 1], allowed, m);
      MissingOfExactly(st.sid, st.action, allowed, m);
      assert policy == policy[..|policy| - 1] + [st];
    }
  }

  lemma {:induction false} MissingOfInOrder(sid: Option<string>, xs: seq<string>, ys: seq<string>, allowed: set<string>)
    ensures MissingOf(sid, xs + ys, allowed) == MissingOf(sid, xs, allowed) + MissingOf(sid, ys, allowed)
  {
    if ys == [] {
      assert xs + ys == xs;
    } else {
      MissingOfInOrder(sid, xs, ys[..|ys| - 1], allowed);
      assert (xs + ys)[..|xs + ys| - 1] == xs + ys[..|ys| - 1];
    }
  }

  /** The list of two policies one after the other is their lists one after the other, and so within a statement. */
  lemma {:induction false} MissingInOrder(p: seq<Statement>, q: seq<Statement>, st: Statement, xs: seq<string>, allowed: set<string>)
    ensures MissingIn(p + q, allowed) == MissingIn(p, allowed) + MissingIn(q, allowed)
    ensures MissingIn([st.(action := st.action + xs)], allowed) == MissingIn([st], allowed) + MissingIn([st.(action := xs)], allowed)
    decreases |q|
  {
    if q == [] {
      assert p + q == p;
    } else {
      MissingInOrder(p, q[..|q| - 1], st, xs, allowed);
      assert (p + q)[..|p + q| - 1] == p + q[..|q| - 1];
    }
    MissingOfInOrder(st.sid, st.action, xs, allowed);
    OneStatement(st, allowed);
    OneStatement(st.(action := xs), allowed);
    OneStatement(st.(action := st.action + xs), allowed);
  }

  lemma OneStatement(st: Statement, allowed: set<string>)
    ensures MissingIn([st], allowed) == if st.effect == Allow then MissingOf(st.sid, st.action, allowed) else []
  {
    assert [st][..0] == [];
  }

  // ---- What an empty list means ----

  lemma {:induction false} NothingMissingOf(sid: Option<string>, actions: seq<string>, allowed: set<string>)
    ensures MissingOf(sid, actions, allowed) == [] <==> forall a :: a in actions ==> Permitted(a, allowed)
  {
    if actions != [] {
      NothingMissingOf(sid, actions[..|actions| - 1], allowed);
      assert actions == actions[..|actions| - 1] + [actions[|actions| - 1]];
    }
  }

  lemma {:induction false} NothingMissing(policy: seq<Statement>, allowed: set<string>)
    ensures MissingIn(policy, allowed) == [] <==>
      forall st, a :: st in policy && st.effect == Allow && a in st.action ==> Permitted(a, allowed)
  {
    if policy != [] {
      var st := policy[|policy| - 1];
      NothingMissing(policy[..|policy| - 1], allowed);
      NothingMissingOf(st.sid, st.action, allowed);
      assert policy == policy[..|policy| - 1] + [st];
    }
  }

  predicate NamesItsActions(policy: seq<Statement>) {
    forall st :: st in policy && st.effect == Allow ==> st.notAction.None?
  }

  /** No denial in the boundary reaches an action the boundary's Allow statements name. */
  ghost predicate DenialsApart(boundary: seq<Statement>) {
    forall st, a, s :: st in boundary && st.effect == Allow && a in st.action && Glob(a, s) ==> !Says(boundary, Deny, s)
  }

  /** An empty list means that the boundary removes nothing the policy grants. */
  ghost predicate GuardHolds(policy: seq<Statement>, boundary: seq<Statement>) {
    MissingIn(policy, AllowedIn(boundary)) == [] ==> forall s :: Grants(policy, s) ==> Grants(boundary, s)
  }

  lemma GuardIsSound(policy: seq<Statement>, boundary: seq<Statement>)
    requires NamesItsActions(policy) && DenialsApart(boundary)
    ensures GuardHolds(policy, boundary)
  {
    if MissingIn(policy, AllowedIn(boundary)) == [] {
      forall s | Grants(policy, s) ensures Grants(boundary, s) {
        NamedIsGranted(policy, boundary, s);
      }
    }
  }

  /** For a given boundary, the guard is sound for every policy that names its actions exactly when this holds of it. */
  lemma SoundExactlyWhenDenialsApart(boundary: seq<Statement>)
    ensures DenialsApart(boundary) <==> forall policy :: NamesItsActions(policy) ==> GuardHolds(policy, boundary)
  {
    if DenialsApart(boundary) {
      forall policy | NamesItsActions(policy) ensures GuardHolds(policy, boundary) {
        GuardIsSound(policy, boundary);
      }
    } else {
      var st, a, s :| st in boundary && st.effect == Allow && a in st.action && Glob(a, s) && Says(boundary, Deny, s);
      var policy := [Statement(None, Allow, [a], None)];
      NothingMissing(policy, AllowedIn(boundary));
      assert a in AllowedIn(boundary) && ActionMatches(a, a);
      assert Applies(policy[0], s) && Grants(policy, s);
      assert NamesItsActions(policy) && !GuardHolds(policy, boundary);
    }
  }

  // ---- Statements that name what they leave out ----

  /** The policy as the guard sees it: what its statements leave out is gone. */
  function Seen(policy: seq<Statement>): seq<Statement> {
    if policy == [] then []
    else Seen(policy[..|policy| - 1]) + [policy[|policy| - 1].(notAction := None)]
  }

  lemma {:induction false} OnlyTheSeenCounts(policy: seq<Statement>, allowed: set<string>)
    ensures MissingIn(Seen(policy), allowed) == MissingIn(policy, allowed)
  {
    if policy != [] {
      var before := policy[..|policy| - 1];
      OnlyTheSeenCounts(before, allowed);
      assert Seen(policy)[..|Seen(policy)| - 1] == Seen(before);
    }
  }

  /** No Allow statement names the action: the policy grants it, if at all, through what a statement leaves out. */
  ghost predicate Unnamed(policy: seq<Statement>, s: string) {
    forall st :: st in policy && st.effect == Allow ==> !AnyGlob(st.action, s)
  }

  /**
   * What a statement leaves out never shows in the list. Under a boundary whose denials stand apart, the guard holds of
   * a policy exactly when its list is not empty, or the boundary grants all that the policy grants without naming it.
   */
  lemma NotActionIsNotLookedAt(policy: seq<Statement>, boundary: seq<Statement>)
    requires DenialsApart(boundary)
    ensures var missing := MissingIn(policy, AllowedIn(boundary));
            && missing == MissingIn(Seen(policy), AllowedIn(boundary))
            && (GuardHolds(policy, boundary) <==>
                  missing != [] || forall s :: Grants(policy, s) && Unnamed(policy, s) ==> Grants(boundary, s))
  {
    var allowed := AllowedIn(boundary);
    OnlyTheSeenCounts(policy, allowed);
    if MissingIn(policy, allowed) == [] {
      forall s | Grants(policy, s) && !Unnamed(policy, s) ensures Grants(boundary, s) {
        NamedIsGranted(policy, boundary, s);
      }
    }
  }

  /** With an empty list, the boundary grants whatever an Allow statement of the policy names. */
  lemma NamedIsGranted(policy: seq<Statement>, boundary: seq<Statement>, s: string)
    requires DenialsApart(boundary) && MissingIn(policy, AllowedIn(boundary)) == [] && !Unnamed(policy, s)
    ensures Grants(boundary, s)
  {
    NothingMissing(policy, AllowedIn(boundary));
    var st :| st in policy && st.effect == Allow && AnyGlob(st.action, s);
    var w :| w in st.action && Glob(w, s);
    assert Permitted(w, AllowedIn(boundary));
    var a :| a in AllowedIn(boundary) && ActionMatches(a, w);
    MatchIsInclusion(a, w, s);
    var b :| b in boundary && b.effect == Allow && a in b.action;
    assert Applies(b, s);
  }
}
