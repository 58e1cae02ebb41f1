/** `sort.Slice`: sorts in place by a strict weak order. Elements that the order does not tell
    apart may come out in any order; none of the results here depends on which. */
module Sorting {

  ghost predicate StrictWeakOrder<T(!new)>(less: (T, T) -> bool) {
    && (forall a, b :: !(less(a, b) && less(b, a)))
    && (forall a, b, c :: less(a, c) ==> less(a, b) || less(b, c))
  }

  ghost predicate Ordered<T>(q: seq<T>, less: (T, T) -> bool) {
    forall i, j | 0 <= i < j < |q| :: !less(q[j], q[i])
  }

  /** `q` with its n-th element moved to position k. */
  function Moved<T>(q: seq<T>, n: nat, k: nat): seq<T>
    requires k <= n < |q|
  {
    q[..k] + [q[n]] + q[k..n] + q[n + 1..]
  }

  lemma SwappedBlocks<T>(before: seq<T>, block: seq<T>, passed: seq<T>, after: seq<T>)
    ensures multiset(before + block + passed + after) == multiset(before + passed + block + after)
  {
  }

  lemma MovedIsPermutation<T>(q: seq<T>, n: nat, k: nat)
    requires k <= n < |q|
    ensures multiset(Moved(q, n, k)) == multiset(q)
  {
    SwappedBlocks(q[..k], [q[n]], q[k..n], q[n + 1..]);
    assert q == q[..k] + q[k..n] + [q[n]] + q[n + 1..];
  }

  lemma MovedAt<T>(q: seq<T>, n: nat, k: nat)
    requires k <= n < |q|
    ensures |Moved(q, n, k)| == |q| && Moved(q, n, k)[k] == q[n]
    ensures k > 0 ==> Moved(q, n, k)[k - 1] == q[k - 1]
    ensures k > 0 ==> Moved(q, n, k)[k - 1 := q[n]][k := q[k - 1]] == Moved(q, n, k - 1)
    ensures Moved(q, n, n) == q
  {
  }

  lemma MovedIsOrdered<T(!new)>(q: seq<T>, n: nat, k: nat, less: (T, T) -> bool)
    requires StrictWeakOrder(less) && k <= n < |q| && Ordered(q[..n], less)
    requires forall j | k <= j < n :: less(q[n], q[j])
    requires k > 0 ==> !less(q[n], q[k - 1])
    ensures Ordered(Moved(q, n, k)[..n + 1], less)
  {
    var front := q[..n];
    assert Moved(q, n, k)[..n + 1] == front[..k] + [q[n]] + front[k..];
    if k > 0 {
      forall i | 0 <= i < k - 1 ensures !less(q[n], front[i]) {
        assert !less(front[k - 1], front[i]);
      }
    }
    forall j | k <= j < n ensures !less(front[j], q[n]) { assert less(q[n], q[j]); }
  }

  method SwapDown<T>(a: array<T>, k: nat)
    requires 0 < k < a.Length
    modifies a
    ensures a[..] == old(a[..][k - 1 := a[k]][k := a[k - 1]])
  {
    a[k - 1], a[k] := a[k], a[k - 1];
  }

  /** Moves the element at `n` down to its place, `k`, among the sorted ones before it. */
  method SinkIntoPlace<T>(a: array<T>, n: nat, less: (T, T) -> bool) returns (ghost k: nat)
    requires n < a.Length
    modifies a
    ensures k <= n && a[..] == Moved(old(a[..]), n, k)
    ensures forall j | k <= j < n :: less(old(a[..])[n], old(a[..])[j])
    ensures k > 0 ==> !less(old(a[..])[n], old(a[..])[k - 1])
  {
    ghost var q := a[..];
    hide Moved;
    var at: nat := n;
    MovedAt(q, n, n);
    while at > 0 && less(a[at], a[at - 1])
      invariant at <= n && a[..] == Moved(q, n, at) && a[at] == q[n] && (at > 0 ==> a[at - 1] == q[at - 1])
      invariant forall j | at <= j < n :: less(q[n], q[j])
    {
      MovedAt(q, n, at);
      SwapDown(a, at);
      at := at - 1;
      MovedAt(q, n, at);
      assert a[at] == a[..][at] && (at > 0 ==> a[at - 1] == a[..][at - 1]);
    }
    k := at;
  }

  method SortSlice<T(!new)>(a: array<T>, less: (T, T) -> bool)
    requires StrictWeakOrder(less)
    modifies a
    ensures multiset(a[..]) == old(multiset(a[..])) && Ordered(a[..], less)
  {
    var n := 0;
    while n < a.Length
      invariant n <= a.Length && multiset(a[..]) == old(multiset(a[..])) && Ordered(a[..][..n], less)
    {
      ghost var q := a[..];
      ghost var k := SinkIntoPlace(a, n, less);
      MovedIsPermutation(q, n, k);
      MovedIsOrdered(q, n, k, less);
      n := n + 1;
    }
    assert a[..][..n] == a[..];
  }

  /** The sorted copy of a slice. */
  method Sorted<T(!new)>(q: seq<T>, less: (T, T) -> bool) returns (r: seq<T>)
    requires StrictWeakOrder(less)
    ensures multiset(r) == multiset(q) && Ordered(r, less)
  {
    var a := new T[|q|](i requires 0 <= i < |q| => q[i]);
    assert a[..] == q;
    SortSlice(a, less);
    r := a[..];
  }

  ghost predicate Total<T(!new)>(less: (T, T) -> bool) {
    forall a, b :: a == b || less(a, b) || less(b, a)
  }

  lemma SameLeast<T(!new)>(p: seq<T>, q: seq<T>, less: (T, T) -> bool)
    requires Total(less) && Ordered(p, less) && Ordered(q, less)
    requires p != [] && q != [] && multiset(p) == multiset(q)
    ensures p[0] == q[0]
  {
    assert p[0] in multiset(q) && q[0] in multiset(p);
    var i :| 0 <= i < |q| && q[i] == p[0];
    var j :| 0 <= j < |p| && p[j] == q[0];
  }

  lemma TailMultiset<T>(p: seq<T>)
    requires p != []
    ensures multiset(p[1..]) == multiset(p) - multiset{p[0]}
  {
    assert p == [p[0]] + p[1..];
  }

  /** Under a total order every arrangement of the same elements sorts to the same list. */
  lemma {:induction false} OrderedIsUnique<T(!new)>(p: seq<T>, q: seq<T>, less: (T, T) -> bool)
    requires Total(less) && Ordered(p, less) && Ordered(q, less) && multiset(p) == multiset(q)
    ensures p == q
  {
    assert |p| == |multiset(p)| == |multiset(q)| == |q|;
    if p != [] {
      SameLeast(p, q, less);
      TailMultiset(p);
      TailMultiset(q);
      assert Ordered(p[1..], less) && Ordered(q[1..], less);
      hide Ordered, Total;
      OrderedIsUnique(p[1..], q[1..], less);
      assert p == [p[0]] + p[1..] && q == [q[0]] + q[1..];
    }
  }

  // ----- sorting as a function

  function Insert<T>(x: T, q: seq<T>, less: (T, T) -> bool): seq<T> {
    if q == [] || !less(q[0], x) then [x] + q else [q[0]] + Insert(x, q[1..], less)
  }

  function SortedBy<T>(q: seq<T>, less: (T, T) -> bool): seq<T> {
    if q == [] then [] else Insert(q[0], SortedBy(q[1..], less), less)
  }

  lemma {:induction false} InsertAdds<T>(x: T, q: seq<T>, less: (T, T) -> bool)
    ensures multiset(Insert(x, q, less)) == multiset(q) + multiset{x}
  {
    if q == [] || !less(q[0], x) {
    } else {
      InsertAdds(x, q[1..], less);
      assert q == [q[0]] + q[1..];
    }
  }

  lemma {:induction false} InsertOrders<T(!new)>(x: T, q: seq<T>, less: (T, T) -> bool)
    requires StrictWeakOrder(less) && Ordered(q, less)
    ensures Ordered(Insert(x, q, less), less)
  {
    if q == [] || !less(q[0], x) {
      forall i | 0 <= i < |q| ensures !less(q[i], x) {
        assert i > 0 ==> !less(q[i], q[0]);
      }
    } else {
      var rest := Insert(x, q[1..], less);
      InsertOrders(x, q[1..], less);
      InsertAdds(x, q[1..], less);
      forall i | 0 <= i < |rest| ensures !less(rest[i], q[0]) {
        assert rest[i] in multiset(rest);
        if rest[i] != x {
          assert rest[i] in multiset(q[1..]);
          var j :| 0 <= j < |q[1..]| && q[1..][j] == rest[i];
          assert !less(q[j + 1], q[0]);
        }
      }
    }
  }

  lemma {:induction false} SortedBySorts<T(!new)>(q: seq<T>, less: (T, T) -> bool)
    requires StrictWeakOrder(less)
    ensures multiset(SortedBy(q, less)) == multiset(q) && Ordered(SortedBy(q, less), less)
  {
    if q != [] {
      SortedBySorts(q[1..], less);
      InsertAdds(q[0], SortedBy(q[1..], less), less);
      InsertOrders(q[0], SortedBy(q[1..], less), less);
      assert q == [q[0]] + q[1..];
    }
  }

  /** Two lists sort alike exactly when one is a rearrangement of the other. */
  lemma SortsAlikeIffRearranged<T(!new)>(p: seq<T>, q: seq<T>, less: (T, T) -> bool)
    requires StrictWeakOrder(less) && Total(less)
    ensures SortedBy(p, less) == SortedBy(q, less) <==> multiset(p) == multiset(q)
  {
    SortedBySorts(p, less);
    SortedBySorts(q, less);
    if multiset(p) == multiset(q) { OrderedIsUnique(SortedBy(p, less), SortedBy(q, less), less); }
  }
}
