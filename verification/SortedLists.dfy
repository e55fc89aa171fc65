/** Strictly increasing lists of numbers, and the sets they stand for. */
module SortedLists {
  predicate Increasing(xs: seq<nat>) {
    forall i, j | 0 <= i < j < |xs| :: xs[i] < xs[j]
  }

  function Members(xs: seq<nat>): set<nat> {
    if xs == [] then {} else Members(xs[..|xs| - 1]) + {xs[|xs| - 1]}
  }

  lemma {:induction false} OneMoreMember(xs: seq<nat>, last: nat)
    ensures Members(xs + [last]) == Members(xs) + {last}
  {
    assert (xs + [last])[..|xs|] == xs;
  }

  lemma {:induction false} MembersAreElements(xs: seq<nat>, x: nat)
    ensures x in Members(xs) <==> x in xs
  {
    if xs != [] {
      MembersAreElements(xs[..|xs| - 1], x);
      assert xs == xs[..|xs| - 1] + [xs[|xs| - 1]];
    }
  }

  lemma {:induction false} LastIsGreatest(front: seq<nat>, last: nat)
    requires Increasing(front + [last])
    ensures Increasing(front) && forall x | x in Members(front) :: x < last
    ensures Members(front) == Members(front + [last]) - {last}
  {
    var all := front + [last];
    forall i, j | 0 <= i < j < |front| ensures front[i] < front[j] { assert all[i] < all[j]; }
    forall x | x in Members(front) ensures x < last {
      MembersAreElements(front, x);
      var i :| 0 <= i < |front| && front[i] == x;
      assert all[i] < all[|front|];
    }
    OneMoreMember(front, last);
  }

  /** Two increasing lists of the same numbers are the same list. */
  lemma {:induction false} IncreasingIsUnique(a: seq<nat>, b: seq<nat>)
    requires Increasing(a) && Increasing(b) && Members(a) == Members(b)
    ensures a == b
  {
    assert a != [] ==> Members(a) != {};
    assert b != [] ==> Members(b) != {};
    if a != [] && b != [] {
      var (x, y, c, d) := (a[..|a| - 1], b[..|b| - 1], a[|a| - 1], b[|b| - 1]);
      assert a == x + [c] && b == y + [d];
      LastIsGreatest(x, c);
      LastIsGreatest(y, d);
      assert c in Members(b) && d in Members(a);
      assert c == d;
      IncreasingIsUnique(x, y);
    }
  }

  /** Increasing lists with the same elements are the same list. */
  lemma {:induction false} SameElements(a: seq<nat>, b: seq<nat>)
    requires Increasing(a) && Increasing(b) && forall x :: x in a <==> x in b
    ensures a == b
  {
    forall x ensures x in Members(a) <==> x in Members(b) {
      MembersAreElements(a, x);
      MembersAreElements(b, x);
    }
    IncreasingIsUnique(a, b);
  }
}
