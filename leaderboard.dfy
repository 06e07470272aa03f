/** The leaderboard query: every member ordered by accepted chapters, highest first,
    ties broken by points, highest first, and cut to the first ten rows. The query
    leaves the order of full ties open; this model keeps them in id order. */
module Leaderboard {
  import opened Ledger

  const Size := 10

  /** `a` is listed no lower than `b` under the query's two sort keys. */
  predicate AtLeast(a: User, b: User)
  {
    a.acceptedChapters > b.acceptedChapters
    || (a.acceptedChapters == b.acceptedChapters && a.points >= b.points)
  }

  predicate Descending(s: seq<User>)
  {
    forall i, j :: 0 <= i < j < |s| ==> AtLeast(s[i], s[j])
  }

  /** Place `x` in front of the first row that does not strictly outrank it. */
  function Insert(x: User, s: seq<User>): (r: seq<User>)
    requires Descending(s)
    ensures Descending(r)
    ensures multiset(r) == multiset(s) + multiset{x}
    ensures forall e :: e in r <==> e == x || e in s
  {
    if s == [] || AtLeast(x, s[0]) then [x] + s
    else
      var rest := Insert(x, s[1..]);
      assert s == [s[0]] + s[1..];
      assert forall e :: e in rest ==> AtLeast(s[0], e);
      [s[0]] + rest
  }

  /** Insertion sort into leaderboard order; earlier rows stay ahead of later ties. */
  function Sort(s: seq<User>): (r: seq<User>)
    ensures Descending(r)
    ensures multiset(r) == multiset(s)
  {
    if s == [] then []
    else
      assert s == [s[0]] + s[1..];
      Insert(s[0], Sort(s[1..]))
  }

  /** Every row of the first `k` of a sorted table outranks every row after them. */
  lemma {:induction false} PrefixDominates(sorted: seq<User>, k: nat, t: User, u: User)
    requires Descending(sorted) && k <= |sorted|
    requires t in sorted[..k]
    requires u in multiset(sorted) - multiset(sorted[..k])
    ensures AtLeast(t, u)
  {
    assert sorted == sorted[..k] + sorted[k..];
    assert multiset(sorted) == multiset(sorted[..k]) + multiset(sorted[k..]);
    assert u in sorted[k..];
    var i :| 0 <= i < k && sorted[i] == t;
    var j :| k <= j < |sorted| && sorted[j] == u;
  }

  /** The `ORDER BY accepted_chapters DESC, points DESC LIMIT 10` query. */
  function Top(users: seq<User>): (top: seq<User>)
    ensures |top| == if |users| < Size then |users| else Size
    ensures Descending(top)
    ensures multiset(top) <= multiset(users)
    ensures forall t, u :: t in top && u in multiset(users) - multiset(top) ==> AtLeast(t, u)
  {
    var sorted := Sort(users);
    var k := if |sorted| < Size then |sorted| else Size;
    assert sorted == sorted[..k] + sorted[k..];
    assert multiset(sorted) == multiset(sorted[..k]) + multiset(sorted[k..]);
    forall t, u | t in sorted[..k] && u in multiset(users) - multiset(sorted[..k])
      ensures AtLeast(t, u)
    {
      PrefixDominates(sorted, k, t, u);
    }
    sorted[..k]
  }
}
