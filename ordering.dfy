/**
 * `ORDER BY created_at` and `OFFSET … LIMIT …` over transaction rows.
 * Rows with equal timestamps may come out in either order, as they may from
 * the database.
 */
module Ordering {
  import opened Models

  datatype Direction = Ascending | Descending

  predicate InOrder(a: Transaction, b: Transaction, dir: Direction)
  {
    if dir == Ascending then a.createdAt <= b.createdAt else a.createdAt >= b.createdAt
  }

  /** Every earlier row comes no later (ascending) or no earlier (descending) than every later row. */
  predicate Ordered(s: seq<Transaction>, dir: Direction)
  {
    forall i, j :: 0 <= i < j < |s| ==> InOrder(s[i], s[j], dir)
  }

  /** `y` may come before every row of `s`. */
  predicate Precedes(y: Transaction, s: seq<Transaction>, dir: Direction)
  {
    forall j :: 0 <= j < |s| ==> InOrder(y, s[j], dir)
  }

  lemma {:induction false} ConsOrdered(a: Transaction, s: seq<Transaction>, dir: Direction)
    requires Precedes(a, s, dir) && Ordered(s, dir)
    ensures Ordered([a] + s, dir)
  {
    var r := [a] + s;
    forall i, j | 0 <= i < j < |r| ensures InOrder(r[i], r[j], dir) {
      if i > 0 {
        assert r[i] == s[i - 1] && r[j] == s[j - 1];
      } else {
        assert r[j] == s[j - 1];
      }
    }
  }

  function Insert(x: Transaction, s: seq<Transaction>, dir: Direction): (r: seq<Transaction>)
    requires Ordered(s, dir)
    ensures Ordered(r, dir)
    ensures multiset(r) == multiset(s) + multiset{x}
    ensures forall y :: Precedes(y, s, dir) && InOrder(y, x, dir) ==> Precedes(y, r, dir)
  {
    if s == [] || InOrder(x, s[0], dir) then
      assert Precedes(x, s, dir);
      ConsOrdered(x, s, dir);
      [x] + s
    else
      var rest := Insert(x, s[1..], dir);
      assert s == [s[0]] + s[1..];
      assert Precedes(s[0], s[1..], dir);
      ConsOrdered(s[0], rest, dir);
      [s[0]] + rest
  }

  /** `ORDER BY created_at`: an ordered rearrangement of exactly the given rows. */
  function Sort(s: seq<Transaction>, dir: Direction): (r: seq<Transaction>)
    ensures Ordered(r, dir)
    ensures multiset(r) == multiset(s)
    ensures |r| == |s|
  {
    if s == [] then []
    else
      assert s == [s[0]] + s[1..];
      Insert(s[0], Sort(s[1..], dir), dir)
  }

  /** `OFFSET offset LIMIT limit`: skip `offset` rows, then keep at most `limit`. */
  function Page<T>(s: seq<T>, offset: nat, limit: nat): (r: seq<T>)
    ensures |r| == if offset >= |s| then 0 else if |s| - offset < limit then |s| - offset else limit
    ensures forall k :: 0 <= k < |r| ==> r[k] == s[offset + k]
  {
    if offset >= |s| then []
    else if |s| - offset < limit then s[offset..]
    else s[offset..offset + limit]
  }
}
