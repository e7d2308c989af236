/** Object keys as their segments, and the two rewrites that move a library's keys to another layout. */
module Keys {
  import opened FileTree

  type Key = Path

  const LOCAL: Name := "local"
  const SHARED: Name := "shared"
  const APPS: Name := "apps"
  const SYNCABLE: Name := "syncable"
  const RETIRED: Name := "starkeep"

  const CATEGORIES: set<Name> := {
    "image", "video", "audio", "document", "text", "code", "font", "archive", "data", "model3d", "starkeep", "other"
  }

  lemma Words()
    ensures LOCAL !in CATEGORIES && RETIRED in CATEGORIES
    ensures SHARED != APPS && LOCAL != SYNCABLE
  {
  }

  // ---- The cutover's rewrite ----

  predicate OldShared(k: Key) { |k| == 4 && k[0] == SHARED && k[1] in CATEGORIES }

  predicate OldApp(k: Key) { |k| >= 4 && k[0] == APPS && k[2] == SYNCABLE }

  /** `toLocal`, with its null for a key not in the old layout read as: no rewrite. */
  function ToLocal(k: Key): Key {
    if OldShared(k) then [SHARED, LOCAL] + k[1..]
    else if OldApp(k) then [APPS, k[1], LOCAL] + k[2..]
    else k
  }

  predicate OldLayout(k: Key) { OldShared(k) || OldApp(k) }

  /** The old keys and what they become; no other key moves. */
  lemma OldKeysByShape(k: Key)
    ensures forall c, shard, hash :: c in CATEGORIES && k == ["shared", c, shard, hash] ==>
      ToLocal(k) == ["shared", "local", c, shard, hash]
    ensures forall app, rest :: rest != [] && k == ["apps", app, "syncable"] + rest ==>
      ToLocal(k) == ["apps", app, "local", "syncable"] + rest
    ensures ToLocal(k) != k ==>
      || (exists c, shard, hash :: c in CATEGORIES && k == ["shared", c, shard, hash])
      || (exists app, rest: Key :: rest != [] && k == ["apps", app, "syncable"] + rest)
    ensures OldLayout(k) <==> ToLocal(k) != k
  {
    Words();
    if OldShared(k) {
      assert k == ["shared", k[1], k[2], k[3]];
      assert ToLocal(k) == ["shared", "local", k[1], k[2], k[3]];
    } else if OldApp(k) {
      assert k == ["apps", k[1], "syncable"] + k[3..];
      assert ToLocal(k) == ["apps", k[1], "local", "syncable"] + k[3..];
    }
    assert |ToLocal(k)| == if OldLayout(k) then |k| + 1 else |k|;
    forall app, rest: Key | rest != [] && k == ["apps", app, "syncable"] + rest ensures OldApp(k) && k[3..] == rest {
    }
  }

  /** No rewritten key is in the old layout, so a second pass over the table changes nothing. */
  lemma ToLocalLeavesTheOldLayout(k: Key)
    ensures !OldLayout(ToLocal(k))
    ensures ToLocal(ToLocal(k)) == ToLocal(k)
  {
  }

  lemma ToLocalIsInjective(j: Key, k: Key)
    requires OldLayout(j) && OldLayout(k) && ToLocal(j) == ToLocal(k)
    ensures j == k
  {
    Words();
    var l := ToLocal(j);
    assert l[0] == j[0] == k[0];
    if OldShared(j) {
      assert j == [SHARED] + l[2..] && k == [SHARED] + l[2..];
    } else {
      assert j == [APPS, l[1]] + l[3..] && k == [APPS, l[1]] + l[3..];
    }
  }

  // ---- Binding's rewrite ----

  predicate LocalShared(k: Key) { |k| >= 3 && k[0] == SHARED && k[1] == LOCAL }

  predicate LocalApp(k: Key) { |k| >= 5 && k[0] == APPS && k[2] == LOCAL && k[3] == SYNCABLE }

  /** What binding promises of a stored key: the owner's segment changes from `local` to the user, nothing else does. */
  function Rebind(k: Key, user: Name): Key {
    if LocalShared(k) then k[1 := user]
    else if LocalApp(k) then k[2 := user]
    else k
  }

  /** The keys of an unbound library and what they become; no other key moves. */
  lemma LocalKeysByShape(k: Key, user: Name)
    requires user != LOCAL
    ensures forall rest :: rest != [] && k == ["shared", "local"] + rest ==> Rebind(k, user) == ["shared", user] + rest
    ensures forall app, rest :: rest != [] && k == ["apps", app, "local", "syncable"] + rest ==>
      Rebind(k, user) == ["apps", app, user, "syncable"] + rest
    ensures Rebind(k, user) != k ==>
      || (exists rest: Key :: rest != [] && k == ["shared", "local"] + rest)
      || (exists app, rest: Key :: rest != [] && k == ["apps", app, "local", "syncable"] + rest)
  {
    Words();
    if LocalShared(k) {
      assert k == ["shared", "local"] + k[2..];
      assert Rebind(k, user) == ["shared", user] + k[2..];
    } else if LocalApp(k) {
      assert k == ["apps", k[1], "local", "syncable"] + k[4..];
      assert Rebind(k, user) == ["apps", k[1], user, "syncable"] + k[4..];
    }
    forall rest: Key | rest != [] && k == ["shared", "local"] + rest ensures LocalShared(k) && k[2..] == rest {
    }
    forall app, rest: Key | rest != [] && k == ["apps", app, "local", "syncable"] + rest
      ensures LocalApp(k) && !LocalShared(k) && k[4..] == rest
    {
    }
  }

  // ---- The statements that carry it out ----

  /** SQLite's `replace` of `/local/syncable/`: after a match, the slash that ended it cannot begin the next. */
  function ReplaceFrom(s: Key, user: Name): Key {
    if |s| < 3 then s
    else if s[0] == LOCAL && s[1] == SYNCABLE then [user, SYNCABLE, s[2]] + ReplaceFrom(s[3..], user)
    else [s[0]] + ReplaceFrom(s[1..], user)
  }

  /** `/local/syncable/` stands in the key at segment `from` or later. */
  predicate HasPair(k: Key, from: nat) { exists i :: from <= i < |k| - 2 && PairAt(k, i) }

  predicate PairAt(k: Key, i: nat) { i + 2 < |k| && k[i] == LOCAL && k[i + 1] == SYNCABLE }

  /** The two UPDATE statements: `like 'shared/local/%'`, then `like 'apps/%/local/syncable/%'`. */
  function SqlRebind(k: Key, user: Name): Key {
    if LocalShared(k) then k[1 := user]
    else if |k| > 0 && k[0] == APPS && HasPair(k, 2) then [k[0]] + ReplaceFrom(k[1..], user)
    else k
  }

  lemma {:induction false} ReplaceIsIdle(s: Key, user: Name)
    requires user != LOCAL
    ensures ReplaceFrom(s, user) == s <==> !HasPair(s, 0)
  {
    if |s| >= 3 {
      if PairAt(s, 0) {
        assert ReplaceFrom(s, user)[0] == user;
      } else {
        ReplaceIsIdle(s[1..], user);
        assert s == [s[0]] + s[1..];
        ShiftPair(s);
      }
    }
  }

  lemma ShiftPair(s: Key)
    requires |s| >= 3 && !PairAt(s, 0)
    ensures HasPair(s, 0) <==> HasPair(s[1..], 0)
  {
    if HasPair(s, 0) {
      var i :| 0 <= i < |s| - 2 && PairAt(s, i);
      assert PairAt(s[1..], i - 1);
    }
    if HasPair(s[1..], 0) {
      var i :| 0 <= i < |s[1..]| - 2 && PairAt(s[1..], i);
      assert PairAt(s, i + 1);
    }
  }

  /**
   * The statements do what binding promises exactly for the keys in which `/local/syncable/` does not stand a second
   * time: past the owner's segment of a `local` key, or anywhere in a key of another owner. (Where the second one
   * starts with the slash that ends the first, `replace` leaves it alone.)
   */
  lemma SqlKeepsThePromise(k: Key, user: Name)
    requires user != LOCAL
    ensures SqlRebind(k, user) == Rebind(k, user)
       <==> !(|k| > 0 && k[0] == APPS && HasPair(k, if LocalApp(k) then 5 else 2))
  {
    Words();
    if |k| > 0 && k[0] == APPS {
      if LocalApp(k) {
        AfterTheOwner(k, user);
      } else if HasPair(k, 2) {
        UnderAnotherOwner(k, user);
      }
    }
  }

  lemma AfterTheOwner(k: Key, user: Name)
    requires user != LOCAL && LocalApp(k) && !LocalShared(k)
    ensures SqlRebind(k, user) == Rebind(k, user) <==> !HasPair(k, 5)
  {
    assert PairAt(k, 2);
    var s1, s2, s5 := k[1..], k[2..], k[5..];
    assert s1[1..] == s2 && s2[3..] == s5;
    assert LOCAL != SYNCABLE by { Words(); }
    var r5 := ReplaceFrom(s5, user);
    var mid := [user, SYNCABLE, k[4]] + r5;
    assert ReplaceFrom(s2, user) == mid;
    assert ReplaceFrom(s1, user) == [k[1]] + mid;
    ReplaceIsIdle(s5, user);
    DropPair(k, 5);
    var head := [APPS, k[1], user, SYNCABLE, k[4]];
    assert [APPS] + ([k[1]] + mid) == head + r5;
    assert k[2 := user] == head + s5;
    SameTail(head, r5, s5);
  }

  lemma UnderAnotherOwner(k: Key, user: Name)
    requires user != LOCAL && |k| > 0 && k[0] == APPS && HasPair(k, 2) && !LocalApp(k) && !LocalShared(k)
    ensures SqlRebind(k, user) != Rebind(k, user)
  {
    var s1 := k[1..];
    ReplaceIsIdle(s1, user);
    DropPair(k, 1);
    var i :| 2 <= i < |k| - 2 && PairAt(k, i);
    assert HasPair(k, 1);
    assert k == [k[0]] + s1;
    SameTail([k[0]], ReplaceFrom(s1, user), s1);
  }

  lemma DropPair(k: Key, n: nat)
    requires n <= |k|
    ensures HasPair(k[n..], 0) <==> HasPair(k, n)
  {
    if HasPair(k, n) {
      var i :| n <= i < |k| - 2 && PairAt(k, i);
      assert PairAt(k[n..], i - n);
    }
    if HasPair(k[n..], 0) {
      var i :| 0 <= i < |k[n..]| - 2 && PairAt(k[n..], i);
      assert PairAt(k, i + n);
    }
  }

  lemma SameTail(head: Key, s: Key, t: Key)
    ensures head + s == head + t <==> s == t
  {
    assert (head + s)[|head|..] == s && (head + t)[|head|..] == t;
  }
}
