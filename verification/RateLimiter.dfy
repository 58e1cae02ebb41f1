/** The fixed-window limiter in front of the HTTP API. Instants are nanoseconds since the zero
    time, which the limiter also takes to mean that a client has no window yet. */
module RateLimiter {
  import opened Text

  const MAX_REQUESTS := 10
  const WINDOW := 60_000_000_000
  const ZERO := 0

  datatype Bucket = Bucket(startedAt: int, requests: nat)

  type Clients = map<string, Bucket>

  /** Go's lookup of an absent key yields the zero bucket. */
  function BucketOf(clients: Clients, key: string): Bucket {
    if key in clients then clients[key] else Bucket(ZERO, 0)
  }

  predicate Opens(clients: Clients, key: string, now: int) {
    BucketOf(clients, key).startedAt == ZERO || now >= BucketOf(clients, key).startedAt + WINDOW
  }

  predicate Admits(clients: Clients, key: string, now: int) {
    Opens(clients, key, now) || BucketOf(clients, key).requests < MAX_REQUESTS
  }

  function AfterRequest(clients: Clients, key: string, now: int): Clients {
    if Opens(clients, key, now) then clients[key := Bucket(now, 1)]
    else if BucketOf(clients, key).requests >= MAX_REQUESTS then clients
    else clients[key := Bucket(BucketOf(clients, key).startedAt, BucketOf(clients, key).requests + 1)]
  }

  class ClientRateLimiter {
    var clients: Clients

    constructor ()
      ensures clients == map[]
    {
      clients := map[];
    }

    method Allow(clientID: string, route: string, now: int) returns (allowed: bool)
      modifies this
      ensures allowed == Admits(old(clients), Joined(clientID, route), now)
      ensures clients == AfterRequest(old(clients), Joined(clientID, route), now)
    {
      var key := clientID + "\0" + route;
      var bucket := if key in clients then clients[key] else Bucket(ZERO, 0);
      if bucket.startedAt == ZERO || !(now < bucket.startedAt + WINDOW) {
        clients := clients[key := Bucket(now, 1)];
        return true;
      }
      if bucket.requests >= MAX_REQUESTS { return false; }
      bucket := bucket.(requests := bucket.requests + 1);
      clients := clients[key := bucket];
      return true;
    }
  }

  // ----- runs

  datatype Request = Request(key: string, now: int)

  ghost predicate ClockAdvances(run: seq<Request>) {
    forall i, j | 0 <= i <= j < |run| :: run[i].now <= run[j].now
  }

  ghost predicate NoneAtZero(run: seq<Request>) {
    forall i | 0 <= i < |run| :: run[i].now != ZERO
  }

  function After(run: seq<Request>): Clients {
    if run == [] then map[] else
      var last := run[|run| - 1];
      AfterRequest(After(run[..|run| - 1]), last.key, last.now)
  }

  /** Requests of `key` admitted at instants in [from, to). */
  function Admitted(run: seq<Request>, key: string, from: int, to: int): nat {
    if run == [] then 0 else
      var before, last := run[..|run| - 1], run[|run| - 1];
      Admitted(before, key, from, to)
      + if last.key == key && from <= last.now < to && Admits(After(before), last.key, last.now) then 1 else 0
  }

  /** Requests of `key` admitted in the n windows' time from `from` on. */
  function AdmittedWithin(run: seq<Request>, key: string, from: int, n: nat): nat {
    Admitted(run, key, from, from + n * WINDOW)
  }

  // ----- the bound

  /** Whole windows between two instants. */
  function FullWindows(from: int, at: int): nat
    requires from <= at
  {
    (at - from) / WINDOW
  }

  lemma WindowsPass(from: int, at: int, next: int)
    requires from <= at && at + WINDOW <= next
    ensures FullWindows(from, next) >= FullWindows(from, at) + 1
  {
  }

  lemma WindowsWithin(from: int, at: int, n: nat)
    requires from <= at < from + n * WINDOW
    ensures FullWindows(from, at) + 1 <= n
  {
  }

  /** What the bucket says about the requests admitted from `from` on. */
  ghost predicate Accounted(run: seq<Request>, key: string, from: int, n: nat) {
    var bucket, count := BucketOf(After(run), key), AdmittedWithin(run, key, from, n);
    if key !in After(run) then count == 0 else
      && 1 <= bucket.requests <= MAX_REQUESTS && bucket.startedAt != ZERO
      && (run != [] ==> bucket.startedAt <= run[|run| - 1].now)
      && count <= MAX_REQUESTS * (n + 1)
      && (run != [] && run[|run| - 1].now < from ==> count == 0)
      && (bucket.startedAt < from ==> count <= bucket.requests)
      && (from <= bucket.startedAt < from + n * WINDOW ==>
            count <= MAX_REQUESTS * (FullWindows(from, bucket.startedAt) + 1) + bucket.requests)
  }

  lemma {:induction false} RunIsAccounted(run: seq<Request>, key: string, from: int, n: nat)
    requires ClockAdvances(run) && NoneAtZero(run)
    ensures Accounted(run, key, from, n)
  {
    if run != [] {
      var before := run[..|run| - 1];
      var last := run[|run| - 1];
      RunIsAccounted(before, key, from, n);
      var since := BucketOf(After(before), key).startedAt;
      if from <= since && since + WINDOW <= last.now { WindowsPass(from, since, last.now); }
      if from <= last.now < from + n * WINDOW { WindowsWithin(from, last.now, n); }
      if from <= since < from + n * WINDOW { WindowsWithin(from, since, n); }
      hide FullWindows;
      if before != [] { assert before[|before| - 1].now <= last.now; }
    }
  }

  /** In any stretch of n windows at most 10(n + 1) requests of one key are admitted. */
  lemma AdmissionsAreBounded(run: seq<Request>, key: string, from: int, n: nat)
    requires ClockAdvances(run) && NoneAtZero(run)
    ensures AdmittedWithin(run, key, from, n) <= MAX_REQUESTS * (n + 1)
  {
    RunIsAccounted(run, key, from, n);
  }

  // ----- refusals

  lemma {:induction false} LaterAdmitsFewer(run: seq<Request>, key: string, from: int, later: int, to: int)
    requires from <= later
    ensures Admitted(run, key, later, to) <= Admitted(run, key, from, to)
  {
    if run != [] { LaterAdmitsFewer(run[..|run| - 1], key, from, later, to); }
  }

  /** The bucket counts exactly the requests admitted since its window opened, and nothing was
      admitted after it closed. */
  lemma {:induction false} BucketCounts(run: seq<Request>, key: string, to: int)
    requires ClockAdvances(run) && NoneAtZero(run) && key in After(run)
    requires to >= BucketOf(After(run), key).startedAt + WINDOW
    ensures Admitted(run, key, BucketOf(After(run), key).startedAt, to) == BucketOf(After(run), key).requests
    ensures Admitted(run, key, BucketOf(After(run), key).startedAt + WINDOW, to) == 0
    ensures BucketOf(After(run), key).startedAt != ZERO
    ensures BucketOf(After(run), key).startedAt <= run[|run| - 1].now
  {
    var before, last := run[..|run| - 1], run[|run| - 1];
    if before != [] { assert before[|before| - 1].now <= last.now; }
    if key in After(before) {
      RunIsAccounted(before, key, ZERO, 0);
      BucketCounts(before, key, to);
      var since := BucketOf(After(before), key).startedAt;
      if last.key == key && Opens(After(before), key, last.now) {
        LaterAdmitsFewer(before, key, since + WINDOW, last.now, to);
        LaterAdmitsFewer(before, key, since + WINDOW, last.now + WINDOW, to);
      }
    } else {
      NeverSeen(before, key, BucketOf(After(run), key).startedAt, to);
      NeverSeen(before, key, BucketOf(After(run), key).startedAt + WINDOW, to);
    }
  }

  lemma {:induction false} NeverSeen(run: seq<Request>, key: string, from: int, to: int)
    requires key !in After(run)
    ensures Admitted(run, key, from, to) == 0
  {
    if run != [] { NeverSeen(run[..|run| - 1], key, from, to); }
  }

  lemma ClockSoFar(run: seq<Request>, request: Request)
    requires ClockAdvances(run + [request])
    ensures ClockAdvances(run) && (run != [] ==> run[|run| - 1].now <= request.now)
  {
    var all := run + [request];
    assert forall i | 0 <= i < |run| :: run[i] == all[i];
    assert run != [] ==> all[|run| - 1].now <= all[|run|].now;
  }

  lemma BucketInBounds(run: seq<Request>, key: string)
    requires ClockAdvances(run) && NoneAtZero(run) && key in After(run)
    ensures 1 <= After(run)[key].requests <= MAX_REQUESTS && After(run)[key].startedAt != ZERO
  {
    RunIsAccounted(run, key, ZERO, 0);
    hide Admitted, After, FullWindows;
  }

  /** A request is refused exactly when its client's current window is still open and has admitted
      ten requests. */
  lemma RefusedIffWindowFull(run: seq<Request>, key: string, now: int)
    requires ClockAdvances(run + [Request(key, now)]) && NoneAtZero(run)
    ensures !Admits(After(run), key, now) <==>
      && key in After(run)
      && var since := After(run)[key].startedAt;
      && since <= now < since + WINDOW && Admitted(run, key, since, since + WINDOW) == MAX_REQUESTS
  {
    hide ClockAdvances, NoneAtZero, After, Admitted;
    ClockSoFar(run, Request(key, now));
    if key in After(run) {
      BucketInBounds(run, key);
      BucketCounts(run, key, After(run)[key].startedAt + WINDOW);
      if run == [] { EmptyRun(); }
    }
  }

  /** Instants at which the run admitted the key. */
  ghost predicate AdmittedAt(run: seq<Request>, key: string, at: int) {
    exists i :: 0 <= i < |run| && run[i] == Request(key, at) && Admits(After(run[..i]), key, at)
  }

  /** A window opens at the very request it first admits. */
  lemma {:induction false} WindowOpensWithAdmission(run: seq<Request>, key: string)
    requires key in After(run)
    ensures AdmittedAt(run, key, After(run)[key].startedAt)
  {
    var before, last := run[..|run| - 1], run[|run| - 1];
    if last.key == key && Opens(After(before), key, last.now) {
      assert run[|run| - 1] == Request(key, last.now) && run[..|run| - 1] == before;
    } else {
      WindowOpensWithAdmission(before, key);
      var at := After(before)[key].startedAt;
      var i :| 0 <= i < |before| && before[i] == Request(key, at) && Admits(After(before[..i]), key, at);
      assert run[i] == before[i] && run[..i] == before[..i];
    }
  }

  lemma EmptyRun()
    ensures After([]) == map[]
  {
  }

  // ----- the zero instant

  function Copies(request: Request, n: nat): (run: seq<Request>)
    ensures |run| == n && forall i | 0 <= i < n :: run[i] == request
  {
    seq(n, _ => request)
  }

  lemma {:induction false} ZeroInstantIsUnlimited(key: string, n: nat)
    ensures Admitted(Copies(Request(key, ZERO), n), key, ZERO, ZERO + WINDOW) == n
    ensures BucketOf(After(Copies(Request(key, ZERO), n)), key).startedAt == ZERO
  {
    if n > 0 {
      ZeroInstantIsUnlimited(key, n - 1);
      assert Copies(Request(key, ZERO), n)[..n - 1] == Copies(Request(key, ZERO), n - 1);
    }
  }

  ghost predicate BoundHolds(run: seq<Request>) {
    forall key, from, n: nat :: AdmittedWithin(run, key, from, n) <= MAX_REQUESTS * (n + 1)
  }

  ghost predicate StartsAt(run: seq<Request>, start: int) {
    forall i | 0 <= i < |run| :: run[i].now >= start
  }

  /** A clock that starts at `start` keeps every run within the bound exactly when it starts after
      the zero instant: at that instant every request opens its window anew. */
  lemma BoundHoldsIffClockAfterZero(start: int)
    ensures (forall run | ClockAdvances(run) && StartsAt(run, start) :: BoundHolds(run))
      <==> start > ZERO
  {
    if start > ZERO {
      forall run | ClockAdvances(run) && StartsAt(run, start) ensures BoundHolds(run) {
        forall key, from, n: nat ensures AdmittedWithin(run, key, from, n) <= MAX_REQUESTS * (n + 1) {
          AdmissionsAreBounded(run, key, from, n);
        }
      }
    } else {
      var run := Copies(Request("", ZERO), 21);
      ZeroInstantIsUnlimited("", 21);
      assert ClockAdvances(run) && StartsAt(run, start);
      assert AdmittedWithin(run, "", ZERO, 1) > MAX_REQUESTS * (1 + 1);
      assert !BoundHolds(run);
    }
  }
}
