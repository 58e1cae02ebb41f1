/** Vocabulary shared by every component: optional values, the statuses, and the ordered
    enumerations that `ORDER BY id` and `sort.Slice` produce. */
module Common {

  datatype Option<+T> = None | Some(value: T)

  datatype OrderStatus = PendingPayment | Paid | Expired | Cancelled

  datatype PaymentStatus =
    | PaymentPending | PaymentSucceeded | PaymentFailed | PaymentExpired | PaymentRefundPending

  datatype WebhookStatus = WebhookSucceeded | WebhookFailed | WebhookExpired

  /** A provider event whose signature and replay window were already verified. */
  datatype WebhookEvent = WebhookEvent(provider: string, eventId: string, reference: string,
                                       status: WebhookStatus, occurredAt: int)

  function Min(a: int, b: int): int {
    if a < b then a else b
  }

  function Max(a: int, b: int): int {
    if a < b then b else a
  }

  ghost predicate IsLeast(m: nat, s: set<nat>) {
    m in s && forall x | x in s :: m <= x
  }

  lemma LeastExists(s: set<nat>)
    requires s != {}
    ensures exists m :: IsLeast(m, s)
    decreases |s|
  {
    var y :| y in s;
    if forall x | x in s :: y <= x {
      assert IsLeast(y, s);
    } else {
      var rest := s - {y};
      assert s == rest + {y};
      assert rest != {};
      LeastExists(rest);
      var m :| IsLeast(m, rest);
      assert IsLeast(m, s);
    }
  }

  ghost function Least(s: set<nat>): (m: nat)
    requires s != {}
    ensures IsLeast(m, s)
  {
    LeastExists(s);
    var m :| IsLeast(m, s);
    m
  }

  ghost predicate StrictlyAscending(q: seq<nat>) {
    forall i, j | 0 <= i < j < |q| :: q[i] < q[j]
  }

  function Elements<T>(q: seq<T>): set<T> {
    set x | x in q
  }

  /** The members of a set listed in increasing order. */
  ghost function Ascending(s: set<nat>): seq<nat>
    decreases |s|
  {
    if s == {} then [] else
      var m := Least(s);
      [m] + Ascending(s - {m})
  }

  lemma {:induction false} AscendingElements(s: set<nat>)
    ensures Elements(Ascending(s)) == s && |Ascending(s)| == |s|
    decreases |s|
  {
    if s != {} {
      var m := Least(s);
      var q, rest := Ascending(s), Ascending(s - {m});
      AscendingElements(s - {m});
      assert q == [m] + rest;
      forall x ensures x in q <==> x in s {
        assert x in rest <==> x in Elements(rest);
      }
    }
  }

  lemma PrependSmaller(m: nat, rest: seq<nat>)
    requires StrictlyAscending(rest) && forall x | x in Elements(rest) :: m < x
    ensures StrictlyAscending([m] + rest)
  {
    assert forall i | 0 <= i < |rest| :: rest[i] in Elements(rest);
  }

  lemma AscendingStep(s: set<nat>)
    requires s != {}
    ensures Ascending(s) == [Least(s)] + Ascending(s - {Least(s)})
    ensures Least(s) in s && forall x | x in s - {Least(s)} :: Least(s) < x
  {
  }

  lemma {:induction false} AscendingLists(s: set<nat>)
    ensures Elements(Ascending(s)) == s && |Ascending(s)| == |s|
    ensures StrictlyAscending(Ascending(s))
    decreases |s|
  {
    AscendingElements(s);
    if s != {} {
      hide *;
      AscendingStep(s);
      var m := Least(s);
      AscendingLists(s - {m});
      PrependSmaller(m, Ascending(s - {m}));
    }
  }

  /** A strictly ascending sequence is determined by its elements. */
  lemma {:induction false} AscendingIsUnique(p: seq<nat>, q: seq<nat>)
    requires StrictlyAscending(p) && StrictlyAscending(q)
    requires Elements(p) == Elements(q)
    ensures p == q
  {
    DistinctIffFullCount(p);
    DistinctIffFullCount(q);
    if p != [] {
      assert p[0] in Elements(p) && q[0] in Elements(q);
      var i :| 0 <= i < |q| && q[i] == p[0];
      var j :| 0 <= j < |p| && p[j] == q[0];
      assert p[0] == q[0];
      TailElements(p);
      TailElements(q);
      AscendingIsUnique(p[1..], q[1..]);
      assert p == [p[0]] + p[1..] && q == [q[0]] + q[1..];
    }
  }

  lemma TailElements(p: seq<nat>)
    requires StrictlyAscending(p) && p != []
    ensures StrictlyAscending(p[1..]) && Elements(p[1..]) == Elements(p) - {p[0]}
  {
    forall x ensures x in p[1..] <==> x in p && x != p[0] {
      if x in p && x != p[0] {
        var i :| 0 <= i < |p| && p[i] == x;
        assert p[1..][i - 1] == x;
      }
    }
  }

  /** A sequence lists as many distinct elements as its length iff it repeats nothing. */
  lemma {:induction false} DistinctIffFullCount<T>(q: seq<T>)
    ensures |Elements(q)| <= |q|
    ensures |Elements(q)| == |q| <==> forall i, j | 0 <= i < j < |q| :: q[i] != q[j]
  {
    if q != [] {
      var front, last := q[..|q| - 1], q[|q| - 1];
      DistinctIffFullCount(front);
      assert forall x :: x in q <==> x in front || x == last;
      assert Elements(q) == Elements(front) + {last};
      if last in front {
        var i :| 0 <= i < |front| && front[i] == last;
        assert q[i] == q[|q| - 1];
        assert Elements(q) == Elements(front);
      } else {
        forall i | 0 <= i < |q| - 1 ensures q[i] != last { assert front[i] in front; }
      }
      if forall i, j | 0 <= i < j < |q| :: q[i] != q[j] {
        assert forall i, j | 0 <= i < j < |front| :: front[i] == q[i] && front[j] == q[j];
      }
    }
  }

  /** `batch` is what ORDER BY (due, id) LIMIT limit selects from `pool`. */
  ghost predicate IsFirst(batch: set<nat>, pool: set<nat>, due: map<nat, int>, limit: nat)
    requires pool <= due.Keys
  {
    && batch <= pool
    && |batch| == Min(limit, |pool|)
    && forall a, b | a in batch && b in pool - batch :: due[a] < due[b] || (due[a] == due[b] && a < b)
  }

  predicate Sooner(due: map<nat, int>, a: nat, b: nat)
    requires a in due && b in due
  {
    due[a] < due[b] || (due[a] == due[b] && a < b)
  }

  lemma SubsetSizes<T>(a: set<T>, b: set<T>)
    requires a <= b
    ensures |a| <= |b| && |b - a| == |b| - |a| && (|a| == |b| ==> a == b)
  {
    assert b == a + (b - a);
  }

  /** A selection that leaves something out is as large as its limit. */
  lemma FullBatch(batch: set<nat>, pool: set<nat>, limit: nat, left: nat)
    requires batch <= pool && |batch| == Min(limit, |pool|) && left in pool - batch
    ensures |batch| == limit
  {
    SubsetSizes(batch, pool);
    assert |pool - batch| > 0;
  }

  /** A row is selected exactly when fewer than `limit` rows of the pool come before it. */
  lemma RankDecides(batch: set<nat>, pool: set<nat>, due: map<nat, int>, limit: nat, x: nat)
    requires pool <= due.Keys && IsFirst(batch, pool, due, limit) && x in pool
    ensures x in batch <==> |set y | y in pool && Sooner(due, y, x)| < limit
  {
    var earlier := set y | y in pool && Sooner(due, y, x);
    if x in batch {
      forall y | y in earlier ensures y in batch - {x} {
        assert y !in pool - batch;
      }
      SubsetSizes(earlier, batch - {x});
    } else {
      FullBatch(batch, pool, limit, x);
      assert batch <= earlier;
      SubsetSizes(batch, earlier);
    }
  }

  /** Executes ORDER BY (due, id) LIMIT limit: repeatedly takes the smallest remaining row. */
  method SelectFirst(pool: set<nat>, due: map<nat, int>, limit: nat) returns (batch: set<nat>)
    requires pool <= due.Keys
    ensures IsFirst(batch, pool, due, limit)
  {
    batch := {};
    var rest := pool;
    while |batch| < limit && rest != {}
      invariant batch !! rest && batch + rest == pool && |batch| <= limit
      invariant |batch| + |rest| == |pool|
      invariant forall a, b | a in batch && b in rest :: due[a] < due[b] || (due[a] == due[b] && a < b)
      decreases |rest|
    {
      var m := FirstRow(rest, due);
      batch := batch + {m};
      rest := rest - {m};
    }
    assert pool - batch == rest;
  }

  method FirstRow(rows: set<nat>, due: map<nat, int>) returns (m: nat)
    requires rows != {} && rows <= due.Keys
    ensures m in rows
    ensures forall x | x in rows - {m} :: due[m] < due[x] || (due[m] == due[x] && m < x)
  {
    m :| m in rows;
    var todo := rows - {m};
    while todo != {}
      invariant m in rows && todo <= rows && m !in todo
      invariant forall x | x in rows - todo - {m} :: due[m] < due[x] || (due[m] == due[x] && m < x)
      decreases |todo|
    {
      var x :| x in todo;
      if due[x] < due[m] || (due[x] == due[m] && x < m) { m := x; }
      todo := todo - {x};
    }
  }
}
