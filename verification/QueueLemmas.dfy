/** Facts about the list helpers of the recovery queue. */
module QueueLemmas {
  import opened PointerModel

  /** No member occurs twice. */
  predicate NoDup(s: seq<Package>) {
    s == [] || (s[|s| - 1] !in s[..|s| - 1] && NoDup(s[..|s| - 1]))
  }

  lemma {:induction false} NoDupMeans(s: seq<Package>)
    ensures NoDup(s) <==> forall i, j :: 0 <= i < j < |s| ==> s[i] != s[j]
  {
    if s != [] {
      NoDupMeans(s[..|s| - 1]);
      forall i, j | 0 <= i < j < |s| && NoDup(s) ensures s[i] != s[j] {
        if j < |s| - 1 { assert s[..|s| - 1][i] != s[..|s| - 1][j]; }
      }
      if s[|s| - 1] in s[..|s| - 1] {
        var k :| 0 <= k < |s| - 1 && s[k] == s[|s| - 1];
      }
    }
  }

  lemma NoDupSnoc(s: seq<Package>, p: Package)
    ensures NoDup(s + [p]) <==> NoDup(s) && p !in s
  {
    assert (s + [p])[..|s|] == s;
  }

  lemma {:induction false} NoDupAppend(s: seq<Package>, t: seq<Package>)
    requires NoDup(s) && NoDup(t) && forall p :: p in t ==> p !in s
    ensures NoDup(s + t)
  {
    if t == [] {
      assert s + t == s;
    } else {
      NoDupAppend(s, t[..|t| - 1]);
      assert (s + t)[..|s + t| - 1] == s + t[..|t| - 1];
    }
  }

  lemma NoDupSuffix(s: seq<Package>, n: nat)
    requires NoDup(s) && n <= |s|
    ensures NoDup(s[n..])
  {
    NoDupMeans(s);
    NoDupMeans(s[n..]);
  }

  /** `t` is `s` with some entries left out, the others in their order. */
  predicate Subsequence(t: seq<Package>, s: seq<Package>)
    decreases |s|
  {
    t == []
    || (s != [] && if t[|t| - 1] == s[|s| - 1] then Subsequence(t[..|t| - 1], s[..|s| - 1])
                   else Subsequence(t, s[..|s| - 1]))
  }

  lemma SubsequenceSnoc(t: seq<Package>, s: seq<Package>, p: Package)
    requires Subsequence(t, s)
    ensures Subsequence(t + [p], s + [p])
  {
    assert (t + [p])[..|t|] == t && (s + [p])[..|s|] == s;
  }

  lemma {:induction false} SubsequenceSkip(t: seq<Package>, s: seq<Package>, p: Package)
    requires Subsequence(t, s) && p !in t
    ensures Subsequence(t, s + [p])
  {
    assert (s + [p])[..|s|] == s;
  }

  lemma {:induction false} UnattendedInOrder(c: Core, names: seq<Package>)
    requires NoDup(names)
    ensures Subsequence(UnattendedIn(c, names), names)
  {
    if names != [] {
      var init, p := names[..|names| - 1], names[|names| - 1];
      UnattendedInOrder(c, init);
      UnattendedInIs(c, init);
      SelectOne(UnattendedIn(c, init), init, p);
      assert names == init + [p];
    }
  }

  lemma {:induction false} UnqueuedInOrder(c: Core, names: seq<Package>)
    requires NoDup(names)
    ensures Subsequence(UnqueuedIn(c, names), names)
  {
    if names != [] {
      var init, p := names[..|names| - 1], names[|names| - 1];
      UnqueuedInOrder(c, init);
      UnqueuedInIs(c, init);
      SelectOne(UnqueuedIn(c, init), init, p);
      assert names == init + [p];
    }
  }

  lemma {:induction false} UnrequestedInOrder(c: Core, names: seq<Package>)
    requires NoDup(names)
    ensures Subsequence(UnrequestedIn(c, names), names)
  {
    if names != [] {
      var init, p := names[..|names| - 1], names[|names| - 1];
      UnrequestedInOrder(c, init);
      UnrequestedInIs(c, init);
      SelectOne(UnrequestedIn(c, init), init, p);
      assert names == init + [p];
    }
  }

  lemma SelectOne(t: seq<Package>, s: seq<Package>, p: Package)
    requires Subsequence(t, s) && p !in t
    ensures Subsequence(t, s + [p]) && Subsequence(t + [p], s + [p])
  {
    SubsequenceSnoc(t, s, p);
    SubsequenceSkip(t, s, p);
  }

  lemma {:induction false} UnattendedInIs(c: Core, names: seq<Package>)
    ensures forall p :: p in UnattendedIn(c, names) <==> p in names && Unattended(c, p)
    ensures NoDup(names) ==> NoDup(UnattendedIn(c, names))
  {
    if names != [] {
      var init, p := names[..|names| - 1], names[|names| - 1];
      UnattendedInIs(c, init);
      assert names == init + [p];
      NoDupSnoc(UnattendedIn(c, init), p);
    }
  }

  lemma NoMembers(s: seq<Package>)
    requires forall p :: p !in s
    ensures s == []
  {
    HasMember(s);
  }

  lemma HasMember(s: seq<Package>)
    ensures s == [] || exists p :: p in s
  {
    if s != [] { assert s[0] in s; }
  }

  lemma PrefixHas(s: seq<Package>)
    ensures forall i, n :: 0 <= i < n <= |s| ==> s[i] in s[..n]
  {
    forall i, n | 0 <= i < n <= |s| ensures s[i] in s[..n] { assert s[..n][i] == s[i]; }
  }

  lemma NobodyUnattended(c: Core, names: seq<Package>)
    requires forall p :: p in names ==> !Unattended(c, p)
    ensures UnattendedIn(c, names) == []
  {
    UnattendedInIs(c, names);
    NoMembers(UnattendedIn(c, names));
  }

  lemma {:induction false} UnrequestedInIs(c: Core, names: seq<Package>)
    ensures forall p :: p in UnrequestedIn(c, names) <==> p in names && Unrequested(c, p)
    ensures NoDup(names) ==> NoDup(UnrequestedIn(c, names))
  {
    if names != [] {
      var init, p := names[..|names| - 1], names[|names| - 1];
      UnrequestedInIs(c, init);
      assert names == init + [p];
      NoDupSnoc(UnrequestedIn(c, init), p);
    }
  }

  lemma {:induction false} UnqueuedInIs(c: Core, names: seq<Package>)
    ensures forall p :: p in UnqueuedIn(c, names)
                        <==> p in names && Unrequested(c, p) && p !in c.queue && c.active != p
    ensures NoDup(names) ==> NoDup(UnqueuedIn(c, names))
  {
    if names != [] {
      var init, p := names[..|names| - 1], names[|names| - 1];
      UnqueuedInIs(c, init);
      SnocHas(init, p);
      SnocHas(UnqueuedIn(c, init), p);
      NoDupSnoc(UnqueuedIn(c, init), p);
      assert names == init + [p];
    }
  }

  lemma SnocHas(s: seq<Package>, x: Package)
    ensures forall p :: p in s + [x] <==> p in s || p == x
  {
  }

  lemma {:induction false} UnrecoveredInIs(c: Core, names: seq<Package>)
    ensures UnrecoveredIn(c, names) == 0 <==> forall p :: p in names ==> !CountsUnrecovered(c, p)
  {
    if names != [] {
      var init, p := names[..|names| - 1], names[|names| - 1];
      UnrecoveredInIs(c, init);
      assert names == init + [p];
    }
  }

  lemma {:induction false} WithoutHas(q: seq<Package>, p: Package, x: Package)
    ensures x in Without(q, p) <==> x in q && x != p
  {
    if q != [] {
      var init := q[..|q| - 1];
      WithoutHas(init, p, x);
      assert q == init + [q[|q| - 1]];
    }
  }

  lemma {:induction false} WithoutNoDup(q: seq<Package>, p: Package)
    requires NoDup(q)
    ensures NoDup(Without(q, p))
  {
    if q != [] {
      var init, x := q[..|q| - 1], q[|q| - 1];
      WithoutNoDup(init, p);
      WithoutHas(init, p, x);
      NoDupSnoc(Without(init, p), x);
    }
  }

  lemma {:induction false} WithoutAbsent(q: seq<Package>, p: Package)
    requires p !in q
    ensures Without(q, p) == q
  {
    if q != [] {
      var init := q[..|q| - 1];
      assert q == init + [q[|q| - 1]];
      WithoutAbsent(init, p);
    }
  }

  lemma WithoutIs(q: seq<Package>, p: Package)
    ensures forall x :: x in Without(q, p) <==> x in q && x != p
    ensures NoDup(q) ==> NoDup(Without(q, p))
    ensures p !in q ==> Without(q, p) == q
  {
    forall x ensures x in Without(q, p) <==> x in q && x != p { WithoutHas(q, p, x); }
    if NoDup(q) { WithoutNoDup(q, p); }
    if p !in q { WithoutAbsent(q, p); }
  }

  /** Resuming is decided on the same rows with or without the pause flag. */
  lemma {:induction false} SameCount(c: Core, d: Core, names: seq<Package>)
    requires d.rows == c.rows && d.unrecoverable == c.unrecoverable
    ensures UnrecoveredIn(c, names) == UnrecoveredIn(d, names)
  {
    if names != [] { SameCount(c, d, names[..|names| - 1]); }
  }

  /** Removing a package from a list without repeats closes the gap and moves nobody else. */
  lemma {:induction false} WithoutCloses(q: seq<Package>, p: Package, k: nat)
    requires NoDup(q) && k < |q| && q[k] == p
    ensures Without(q, p) == q[..k] + q[k + 1..]
  {
    var init := q[..|q| - 1];
    assert q == init + [q[|q| - 1]];
    NoDupMeans(q);
    if k == |q| - 1 {
      WithoutIs(init, p);
      assert q[..k] + q[k + 1..] == init;
    } else {
      WithoutCloses(init, p, k);
      assert init[..k] == q[..k];
      assert q[k + 1..] == init[k + 1..] + [q[|q| - 1]];
    }
  }

  /** The dequeue loop skips a prefix of marked entries and stops at an unmarked one. */
  lemma {:induction false} SkipIs(q: seq<Package>, marked: set<Package>)
    ensures var r := SkipUnrecoverable(q, marked);
            |r| <= |q| && r == q[|q| - |r|..] && (forall i :: 0 <= i < |q| - |r| ==> q[i] in marked)
            && (r != [] ==> r[0] !in marked)
            && (q == [] || q[0] !in marked ==> r == q)
  {
    if q != [] && q[0] in marked {
      SkipIs(q[1..], marked);
      var r := SkipUnrecoverable(q, marked);
      assert q[1..][|q| - 1 - |r|..] == q[|q| - |r|..];
      forall i | 0 <= i < |q| - |r| ensures q[i] in marked {
        if i > 0 { assert q[i] == q[1..][i - 1]; }
      }
    }
  }

  lemma {:induction false} EnsureAllIs(c: Core, ps: seq<Package>)
    ensures var d := EnsureAll(c, ps);
            && d == c.(order := d.order, rows := d.rows)
            && c.order <= d.order
            && (forall p :: p in d.rows <==> p in c.rows || p in ps)
            && (forall p :: p in c.rows ==> d.rows[p] == c.rows[p])
            && (forall p :: p in d.rows && p !in c.rows ==> d.rows[p] == FreshRow)
    decreases |ps|
  {
    if ps != [] {
      EnsureAllIs(Ensure(c, ps[0]), ps[1..]);
    }
  }

  lemma {:induction false} EnsureAllKeepsOrder(c: Core, ps: seq<Package>)
    requires OrderMatches(c)
    ensures OrderMatches(EnsureAll(c, ps))
    decreases |ps|
  {
    if ps != [] {
      NoDupSnoc(c.order, ps[0]);
      EnsureAllKeepsOrder(Ensure(c, ps[0]), ps[1..]);
    }
  }

  /** The iteration order lists every row exactly once. */
  ghost predicate OrderMatches(c: Core) {
    NoDup(c.order) && forall p :: p in c.order <==> p in c.rows
  }
}
