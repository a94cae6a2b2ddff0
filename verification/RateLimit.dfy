/**
 The limit on submit requests: a token bucket per queue and an optional global one in front of it.
 Times are in nanoseconds, and levels in 60-billionths of a token, so that a bucket of p requests
 a minute gains p units of level in each nanosecond, and all of it is exact.
 */
module RateLimiting {
  import opened Jobs

  /** One token; also one minute. */
  const UNIT: int := 60_000_000_000

  function Burst(perMin: int): (b: int)
    ensures perMin > 0 ==> 1 <= b <= perMin
    ensures perMin >= 10 ==> b >= 10
    ensures perMin >= 60 ==> 6 * b <= perMin < 6 * b + 6
  {
    if perMin < 10 then perMin
    else if perMin < 60 then 10
    else perMin / 6
  }

  // ----- One bucket -----

  datatype Bucket = Bucket(perMin: int, level: int, last: int)

  function Full(perMin: int): Bucket {
    Bucket(perMin, Burst(perMin) * UNIT, 0)
  }

  function Min(a: int, b: int): int {
    if a < b then a else b
  }

  /** The level at a time; one before the last update counts as that update. */
  function LevelAt(b: Bucket, now: int): int {
    Min(Burst(b.perMin) * UNIT, b.level + b.perMin * Max0(now - b.last))
  }

  predicate Admits(b: Bucket, now: int) {
    LevelAt(b, now) >= UNIT
  }

  /** A rejected request changes nothing. */
  function Taken(b: Bucket, now: int): Bucket {
    if Admits(b, now) then Bucket(b.perMin, LevelAt(b, now) - UNIT, now) else b
  }

  function Admitted(b: Bucket, times: seq<int>): nat
    decreases |times|
  {
    if times == [] then 0
    else (if Admits(b, times[0]) then 1 else 0) + Admitted(Taken(b, times[0]), times[1..])
  }

  predicate Sound(b: Bucket) {
    b.perMin > 0 && 0 <= b.level <= Burst(b.perMin) * UNIT
  }

  lemma TakenIsSound(b: Bucket, now: int)
    requires Sound(b)
    ensures Sound(Taken(b, now)) && Taken(b, now).perMin == b.perMin
    ensures 0 <= LevelAt(b, now) <= Burst(b.perMin) * UNIT
    ensures LevelAt(Taken(b, now), now) == LevelAt(b, now) - (if Admits(b, now) then UNIT else 0)
  {
  }

  lemma Distribute(p: int, x: int, y: int)
    ensures p * (x + y) == p * x + p * y
  {
  }

  lemma Monotone(p: int, x: int, y: int)
    requires p >= 0 && x <= y
    ensures p * x <= p * y
  {
    Distribute(p, x, y - x);
  }

  /** Between two times the level rises by no more than p for each nanosecond. */
  lemma LevelRises(b: Bucket, now: int, later: int)
    requires Sound(b)
    ensures LevelAt(b, later) <= LevelAt(b, now) + b.perMin * Max0(later - now)
  {
    Monotone(b.perMin, Max0(later - b.last), Max0(now - b.last) + Max0(later - now));
    Distribute(b.perMin, Max0(now - b.last), Max0(later - now));
    Monotone(b.perMin, 0, Max0(later - now));
  }

  /** How far the times climb, all in all; steps back are not subtracted. */
  function Climb(times: seq<int>): nat
    decreases |times|
  {
    if |times| <= 1 then 0 else Max0(times[1] - times[0]) + Climb(times[1..])
  }

  /** What a bucket admits is paid for by what it held and what it gained. */
  lemma {:induction false} AdmittedIsPaid(b: Bucket, times: seq<int>)
    requires Sound(b) && |times| > 0
    ensures UNIT * Admitted(b, times) <= LevelAt(b, times[0]) + b.perMin * Climb(times)
    decreases |times|
  {
    var now, b' := times[0], Taken(b, times[0]);
    TakenIsSound(b, now);
    if |times| == 1 {
      assert Admitted(b', times[1..]) == 0;
    } else {
      var rest, rise := times[1..], Max0(times[1] - now);
      LevelRises(b', now, times[1]);
      AdmittedIsPaid(b', rest);
      Distribute(b.perMin, rise, Climb(rest));
      assert UNIT * Admitted(b', rest) <= LevelAt(b', now) + b.perMin * rise + b.perMin * Climb(rest);
    }
  }

  predicate NonDecreasing(times: seq<int>) {
    forall i, j :: 0 <= i < j < |times| ==> times[i] <= times[j]
  }

  lemma {:induction false} ClimbOfSorted(times: seq<int>)
    requires NonDecreasing(times) && |times| > 0
    ensures Climb(times) == times[|times| - 1] - times[0]
    decreases |times|
  {
    if |times| > 1 {
      ClimbOfSorted(times[1..]);
    }
  }

  /** In any window, whatever came before it, a bucket admits no more than its burst and the window's share. */
  lemma WindowBound(b: Bucket, times: seq<int>)
    requires Sound(b) && |times| > 0 && NonDecreasing(times)
    ensures UNIT * Admitted(b, times) <= UNIT * Burst(b.perMin) + b.perMin * (times[|times| - 1] - times[0])
  {
    AdmittedIsPaid(b, times);
    ClimbOfSorted(times);
    TakenIsSound(b, times[0]);
  }

  /**
   The bound needs the requests to arrive in the order of their times: a bucket that sees a time
   before its last update goes back to it, and gains the same interval twice.
   */
  lemma OutOfOrderExceeds()
    ensures var b, times := Full(2), [0, UNIT / 2, 0, UNIT / 2];
            Sound(b) && UNIT * Admitted(b, times) > UNIT * Burst(2) + 2 * (UNIT / 2)
  {
    var b0, half := Full(2), UNIT / 2;
    var b1 := Taken(b0, 0);
    var b2 := Taken(b1, half);
    var b3 := Taken(b2, 0);
    assert b1 == Bucket(2, UNIT, 0) && b2 == Bucket(2, UNIT, half) && b3 == Bucket(2, 0, 0) && Admits(b3, half);
    assert Admits(b0, 0) && Admits(b1, half) && Admits(b2, 0);
    AdmittedFirst(b3, half, []);
    AdmittedFirst(b2, 0, [half]);
    AdmittedFirst(b1, half, [0, half]);
    AdmittedFirst(b0, 0, [half, 0, half]);
    assert [0] + [half, 0, half] == [0, half, 0, half] && [half] + [0, half] == [half, 0, half];
    assert [0] + [half] == [0, half] && [half] + [] == [half];
  }

  lemma AdmittedFirst(b: Bucket, now: int, rest: seq<int>)
    ensures Admitted(b, [now] + rest) == (if Admits(b, now) then 1 else 0) + Admitted(Taken(b, now), rest)
  {
    assert ([now] + rest)[1..] == rest;
  }

  // ----- Out of order -----

  predicate InWindow(times: seq<int>, start: int, end: int) {
    forall i :: 0 <= i < |times| ==> start <= times[i] <= end
  }

  /** A fresh bucket can be made to admit any number of requests whose times are in the window. */
  ghost predicate Unlimited(p: int, start: int, end: int) {
    forall n: nat :: AdmitsMoreThan(p, start, end, n)
  }

  ghost predicate AdmitsMoreThan(p: int, start: int, end: int, n: nat) {
    exists times :: InWindow(times, start, end) && Admitted(Full(p), times) > n
  }

  /** From the end of the window back to its start, and forth again. */
  function Swings(start: int, end: int, n: nat): seq<int> {
    if n == 0 then [] else [start, end] + Swings(start, end, n - 1)
  }

  lemma SwingOnce(b: Bucket, start: int, end: int)
    requires Sound(b) && b.perMin >= 2 && b.last == end && b.level >= UNIT
    requires start <= end && b.perMin * (end - start) >= 2 * UNIT
    ensures var back := Taken(b, start);
            var forth := Taken(back, end);
            && Admits(b, start) && Admits(back, end)
            && Sound(forth) && forth.perMin == b.perMin && forth.last == end && forth.level >= UNIT
  {
    var back := Taken(b, start);
    assert b.perMin * Max0(start - end) == 0;
    assert back == Bucket(b.perMin, b.level - UNIT, start);
    assert Burst(b.perMin) >= 2;
    assert LevelAt(back, end) >= 2 * UNIT;
  }

  lemma {:induction false} SwingsAdmitAll(b: Bucket, start: int, end: int, n: nat)
    requires Sound(b) && b.perMin >= 2 && b.last == end && b.level >= UNIT
    requires start <= end && b.perMin * (end - start) >= 2 * UNIT
    ensures Admitted(b, Swings(start, end, n)) == 2 * n && InWindow(Swings(start, end, n), start, end)
    decreases n
  {
    if n > 0 {
      SwingOnce(b, start, end);
      var rest := Swings(start, end, n - 1);
      var all := Swings(start, end, n);
      SwingsAdmitAll(Taken(Taken(b, start), end), start, end, n - 1);
      assert all[1..] == [end] + rest && all[1..][1..] == rest;
    }
  }

  lemma FullAdmits(p: int, now: int)
    requires p > 0
    ensures Admits(Full(p), now) && Taken(Full(p), now) == Bucket(p, Burst(p) * UNIT - UNIT, now)
  {
    Monotone(p, 0, Max0(now));
    assert Burst(p) * UNIT >= UNIT;
  }

  lemma SwingsExceed(p: int, start: int, end: int, n: nat)
    requires p >= 2 && start <= end && p * (end - start) >= 2 * UNIT
    ensures AdmitsMoreThan(p, start, end, n)
  {
    FullAdmits(p, end);
    var b, rest := Taken(Full(p), end), Swings(start, end, n);
    assert Burst(p) * UNIT >= 2 * UNIT;
    SwingsAdmitAll(b, start, end, n);
    assert ([end] + rest)[1..] == rest;
    assert Admitted(Full(p), [end] + rest) == 1 + 2 * n;
  }

  /** Twice the level, and what the bucket would gain until the end of the window. */
  function Credit(b: Bucket, end: int): int {
    2 * b.level + b.perMin * (end - b.last)
  }

  lemma AdmissionCosts(b: Bucket, now: int, start: int, end: int)
    requires Sound(b) && start <= b.last <= end && start <= now <= end && Admits(b, now)
    ensures Credit(Taken(b, now), end) <= Credit(b, end) - (2 * UNIT - b.perMin * (end - start))
    ensures Credit(b, end) >= 0
  {
    var p := b.perMin;
    Monotone(p, 0, end - b.last);
    Distribute(p, end - now, now - b.last);
    if now >= b.last {
      Monotone(p, now - b.last, end - start);
      Monotone(p, 0, now - b.last);
    } else {
      assert p * Max0(now - b.last) == 0;
      Distribute(p, now - b.last, b.last - now);
      Monotone(p, b.last - now, end - start);
    }
  }

  lemma {:induction false} CreditLimits(b: Bucket, times: seq<int>, start: int, end: int)
    requires Sound(b) && start <= b.last <= end && InWindow(times, start, end)
    requires b.perMin * (end - start) < 2 * UNIT
    ensures Admitted(b, times) <= Credit(b, end)
    decreases |times|
  {
    Monotone(b.perMin, 0, end - b.last);
    if times != [] {
      var now := times[0];
      TakenIsSound(b, now);
      CreditLimits(Taken(b, now), times[1..], start, end);
      if Admits(b, now) {
        AdmissionCosts(b, now, start, end);
      }
    }
  }

  /** A bucket of one request a minute is empty after each, and waits a minute for the next. */
  lemma {:induction false} OneAMinute(b: Bucket, times: seq<int>, start: int, end: int)
    requires b.perMin == 1 && b.level == 0 && start <= b.last <= end && InWindow(times, start, end)
    ensures Admitted(b, times) <= end - b.last
    decreases |times|
  {
    if times != [] {
      OneAMinute(Taken(b, times[0]), times[1..], start, end);
    }
  }

  lemma Limited(p: int, start: int, end: int, times: seq<int>)
    requires p > 0 && start <= end && (p == 1 || p * (end - start) < 2 * UNIT) && InWindow(times, start, end)
    ensures Admitted(Full(p), times) <= 1 + 2 * (Burst(p) * UNIT) + p * (end - start)
  {
    Monotone(p, 0, end - start);
    assert Burst(p) * UNIT >= UNIT;
    if times != [] {
      var now, rest := times[0], times[1..];
      FullAdmits(p, now);
      var b := Taken(Full(p), now);
      if p == 1 {
        OneAMinute(b, rest, start, end);
      } else {
        CreditLimits(b, rest, start, end);
        Monotone(p, end - now, end - start);
      }
    }
  }

  /**
   Out of the order of their times, requests of one window are admitted without limit exactly if a
   bucket holds two tokens and gains two in the window: each step back costs one, as does each step
   forth, and the window is gained again each time.
   */
  lemma UnlimitedExactlyWhen(p: int, start: int, end: int)
    requires p > 0 && start <= end
    ensures Unlimited(p, start, end) <==> p >= 2 && p * (end - start) >= 2 * UNIT
  {
    if p >= 2 && p * (end - start) >= 2 * UNIT {
      forall n: nat ensures AdmitsMoreThan(p, start, end, n) {
        SwingsExceed(p, start, end, n);
      }
    } else {
      Monotone(p, 0, end - start);
      assert Burst(p) * UNIT >= UNIT;
      var n: nat := 1 + 2 * (Burst(p) * UNIT) + p * (end - start);
      forall times | InWindow(times, start, end) ensures Admitted(Full(p), times) <= n {
        Limited(p, start, end, times);
      }
      assert !AdmitsMoreThan(p, start, end, n);
    }
  }

  // ----- The limiter -----

  /** A request reads the clock once for each bucket it asks. */
  datatype Request = Request(queue: string, at: int, later: int)

  datatype Limits = Limits(perMinute: int, perQueue: map<string, Bucket>, global: Option<Bucket>)

  function NewLimits(perQueuePerMin: int, globalPerMin: int): Limits {
    Limits(perQueuePerMin, map[], if globalPerMin > 0 then Some(Full(globalPerMin)) else None)
  }

  function QueueBucket(l: Limits, queue: string): Option<Bucket> {
    if queue in l.perQueue then Some(l.perQueue[queue])
    else if l.perMinute <= 0 then None
    else Some(Full(l.perMinute))
  }

  predicate PassesGlobal(l: Limits, r: Request) {
    l.global.None? || Admits(l.global.value, r.at)
  }

  predicate Allowed(l: Limits, r: Request) {
    var bucket := QueueBucket(l, NormalQueue(r.queue));
    PassesGlobal(l, r) && (bucket.None? || Admits(bucket.value, r.later))
  }

  /** A request that the queue's bucket rejects has spent a global token all the same. */
  function After(l: Limits, r: Request): Limits {
    var global := if l.global.None? then None else Some(Taken(l.global.value, r.at));
    var bucket := QueueBucket(l, NormalQueue(r.queue));
    if !PassesGlobal(l, r) || bucket.None? then l.(global := global)
    else l.(global := global, perQueue := l.perQueue[NormalQueue(r.queue) := Taken(bucket.value, r.later)])
  }

  function AfterAll(l: Limits, reqs: seq<Request>): Limits
    decreases |reqs|
  {
    if reqs == [] then l else AfterAll(After(l, reqs[0]), reqs[1..])
  }

  /** How many of the requests are allowed, to one queue, and in all; and how many spend a global token. */
  function AllowedTo(l: Limits, reqs: seq<Request>, queue: string): nat
    decreases |reqs|
  {
    if reqs == [] then 0
    else (if Allowed(l, reqs[0]) && NormalQueue(reqs[0].queue) == queue then 1 else 0)
         + AllowedTo(After(l, reqs[0]), reqs[1..], queue)
  }

  function AllowedInAll(l: Limits, reqs: seq<Request>): nat
    decreases |reqs|
  {
    if reqs == [] then 0
    else (if Allowed(l, reqs[0]) then 1 else 0) + AllowedInAll(After(l, reqs[0]), reqs[1..])
  }

  function Spent(l: Limits, reqs: seq<Request>): nat
    decreases |reqs|
  {
    if reqs == [] then 0
    else (if PassesGlobal(l, reqs[0]) then 1 else 0) + Spent(After(l, reqs[0]), reqs[1..])
  }

  predicate LimitsOk(l: Limits) {
    && (l.global.Some? ==> Sound(l.global.value))
    && forall q :: q in l.perQueue ==> Sound(l.perQueue[q]) && l.perQueue[q].perMin == l.perMinute
  }

  lemma AfterKeeps(l: Limits, r: Request)
    requires LimitsOk(l)
    ensures LimitsOk(After(l, r)) && After(l, r).perMinute == l.perMinute
    ensures After(l, r).global.Some? <==> l.global.Some?
    ensures l.global.Some? ==> After(l, r).global.value.perMin == l.global.value.perMin
  {
    if l.global.Some? {
      TakenIsSound(l.global.value, r.at);
    }
    var bucket := QueueBucket(l, NormalQueue(r.queue));
    if bucket.Some? {
      TakenIsSound(bucket.value, r.later);
    }
  }

  lemma {:induction false} AfterAllKeeps(l: Limits, reqs: seq<Request>)
    requires LimitsOk(l)
    ensures LimitsOk(AfterAll(l, reqs)) && AfterAll(l, reqs).perMinute == l.perMinute
    ensures AfterAll(l, reqs).global.Some? <==> l.global.Some?
    ensures l.global.Some? ==> AfterAll(l, reqs).global.value.perMin == l.global.value.perMin
    decreases |reqs|
  {
    if reqs != [] {
      AfterKeeps(l, reqs[0]);
      AfterAllKeeps(After(l, reqs[0]), reqs[1..]);
    }
  }

  /** The times at which the bucket of a queue is asked. */
  function QueueTimes(l: Limits, reqs: seq<Request>, queue: string): seq<int>
    decreases |reqs|
  {
    if reqs == [] then []
    else (if PassesGlobal(l, reqs[0]) && NormalQueue(reqs[0].queue) == queue then [reqs[0].later] else [])
         + QueueTimes(After(l, reqs[0]), reqs[1..], queue)
  }

  function GlobalTimes(reqs: seq<Request>): seq<int> {
    seq(|reqs|, i requires 0 <= i < |reqs| => reqs[i].at)
  }

  /** A queue's share of a run is the run of its own bucket. */
  lemma {:induction false} QueueAsBucket(l: Limits, reqs: seq<Request>, queue: string)
    requires LimitsOk(l) && l.perMinute > 0
    ensures AllowedTo(l, reqs, queue) == Admitted(QueueBucket(l, queue).value, QueueTimes(l, reqs, queue))
    decreases |reqs|
  {
    if reqs != [] {
      var r, l', rest := reqs[0], After(l, reqs[0]), reqs[1..];
      AfterKeeps(l, r);
      QueueAsBucket(l', rest, queue);
      if PassesGlobal(l, r) && NormalQueue(r.queue) == queue {
        assert QueueTimes(l, reqs, queue)[0] == r.later;
        assert QueueTimes(l, reqs, queue)[1..] == QueueTimes(l', rest, queue);
      } else {
        assert QueueBucket(l', queue) == QueueBucket(l, queue);
        assert QueueTimes(l, reqs, queue) == QueueTimes(l', rest, queue);
      }
    }
  }

  lemma {:induction false} GlobalAsBucket(l: Limits, reqs: seq<Request>)
    requires LimitsOk(l) && l.global.Some?
    ensures Spent(l, reqs) == Admitted(l.global.value, GlobalTimes(reqs))
    ensures AllowedInAll(l, reqs) <= Spent(l, reqs)
    decreases |reqs|
  {
    if reqs != [] {
      AfterKeeps(l, reqs[0]);
      GlobalAsBucket(After(l, reqs[0]), reqs[1..]);
      assert GlobalTimes(reqs)[1..] == GlobalTimes(reqs[1..]);
    }
  }

  predicate InOrder(reqs: seq<Request>) {
    forall i, j :: 0 <= i < j < |reqs| ==> reqs[i].at <= reqs[j].at && reqs[i].later <= reqs[j].later
  }

  /** The window in which the requests read the clock. */
  predicate Within(reqs: seq<Request>, start: int, end: int) {
    forall r :: r in reqs ==> start <= r.at <= end && start <= r.later <= end
  }

  lemma PrependInOrder(first: int, times: seq<int>)
    requires NonDecreasing(times) && forall i :: 0 <= i < |times| ==> first <= times[i]
    ensures NonDecreasing([first] + times)
  {
  }

  lemma RestInOrder(reqs: seq<Request>, start: int, end: int)
    requires |reqs| > 0 && InOrder(reqs) && Within(reqs, start, end)
    ensures InOrder(reqs[1..]) && Within(reqs[1..], start, end) && start <= reqs[0].later <= end
    ensures forall r :: r in reqs[1..] ==> reqs[0].later <= r.later
  {
    assert reqs[0] in reqs;
    forall r | r in reqs[1..] ensures r in reqs && reqs[0].later <= r.later {
      var i :| 0 <= i < |reqs[1..]| && reqs[1..][i] == r;
      assert reqs[i + 1] == r;
    }
  }

  lemma {:induction false} QueueTimesInOrder(l: Limits, reqs: seq<Request>, queue: string, start: int, end: int)
    requires InOrder(reqs) && Within(reqs, start, end)
    ensures NonDecreasing(QueueTimes(l, reqs, queue))
    ensures forall i :: 0 <= i < |QueueTimes(l, reqs, queue)| ==> start <= QueueTimes(l, reqs, queue)[i] <= end
    decreases |reqs|
  {
    if reqs != [] {
      var rest := reqs[1..];
      RestInOrder(reqs, start, end);
      QueueTimesInOrder(After(l, reqs[0]), rest, queue, start, end);
      LaterOnly(After(l, reqs[0]), rest, queue, reqs[0].later);
      PrependInOrder(reqs[0].later, QueueTimes(After(l, reqs[0]), rest, queue));
    }
  }

  lemma {:induction false} LaterOnly(l: Limits, reqs: seq<Request>, queue: string, low: int)
    requires forall r :: r in reqs ==> low <= r.later
    ensures forall i :: 0 <= i < |QueueTimes(l, reqs, queue)| ==> low <= QueueTimes(l, reqs, queue)[i]
    decreases |reqs|
  {
    if reqs != [] {
      assert reqs[0] in reqs;
      LaterOnly(After(l, reqs[0]), reqs[1..], queue, low);
    }
  }

  /**
   In any window of any run, a queue is allowed no more than its burst and the window's share of its
   rate, which makes no more than twice its rate in a minute.
   */
  lemma QueueRateBound(p: int, g: int, before: seq<Request>, window: seq<Request>, queue: string, start: int, end: int)
    requires p > 0 && start <= end && InOrder(window) && Within(window, start, end)
    ensures var l := AfterAll(NewLimits(p, g), before);
            && UNIT * AllowedTo(l, window, queue) <= UNIT * Burst(p) + p * (end - start)
            && (end - start <= UNIT ==> AllowedTo(l, window, queue) <= 2 * p)
  {
    AfterAllKeeps(NewLimits(p, g), before);
    var l := AfterAll(NewLimits(p, g), before);
    var times := QueueTimes(l, window, queue);
    QueueAsBucket(l, window, queue);
    QueueTimesInOrder(l, window, queue, start, end);
    BucketWithin(QueueBucket(l, queue).value, times, start, end);
  }

  lemma BucketWithin(b: Bucket, times: seq<int>, start: int, end: int)
    requires Sound(b) && NonDecreasing(times) && start <= end
    requires forall i :: 0 <= i < |times| ==> start <= times[i] <= end
    ensures UNIT * Admitted(b, times) <= UNIT * Burst(b.perMin) + b.perMin * (end - start)
    ensures end - start <= UNIT ==> Admitted(b, times) <= 2 * b.perMin
  {
    Monotone(b.perMin, 0, end - start);
    if times != [] {
      WindowBound(b, times);
      Monotone(b.perMin, times[|times| - 1] - times[0], end - start);
    }
    if end - start <= UNIT {
      Monotone(b.perMin, end - start, UNIT);
    }
  }

  /** The global bound holds for all queues together, and counts even what a queue then rejects. */
  lemma GlobalRateBound(p: int, g: int, before: seq<Request>, window: seq<Request>, start: int, end: int)
    requires g > 0 && start <= end && InOrder(window) && Within(window, start, end)
    ensures var l := AfterAll(NewLimits(p, g), before);
            && AllowedInAll(l, window) <= Spent(l, window)
            && UNIT * Spent(l, window) <= UNIT * Burst(g) + g * (end - start)
            && (end - start <= UNIT ==> Spent(l, window) <= 2 * g)
  {
    AfterAllKeeps(NewLimits(p, g), before);
    var l := AfterAll(NewLimits(p, g), before);
    GlobalAsBucket(l, window);
    forall i | 0 <= i < |window| ensures start <= GlobalTimes(window)[i] <= end {
      assert window[i] in window;
    }
    BucketWithin(l.global.value, GlobalTimes(window), start, end);
  }

  // ----- It is not stricter than it says -----

  /** Every bucket has n tokens left. */
  predicate Stocked(l: Limits, n: nat) {
    && (l.global.Some? ==> l.global.value.level >= n * UNIT)
    && (forall q :: q in l.perQueue ==> l.perQueue[q].level >= n * UNIT)
    && (l.perMinute > 0 ==> Burst(l.perMinute) >= n)
  }

  lemma StockedOneLess(l: Limits, r: Request, n: nat)
    requires LimitsOk(l) && n > 0 && Stocked(l, n)
    ensures Allowed(l, r) && Stocked(After(l, r), n - 1)
  {
    assert n * UNIT >= UNIT && (n - 1) * UNIT == n * UNIT - UNIT;
    if l.global.Some? {
      TakenKeepsStock(l.global.value, r.at, n);
    }
    var bucket := QueueBucket(l, NormalQueue(r.queue));
    if bucket.Some? {
      TakenKeepsStock(bucket.value, r.later, n);
    }
  }

  lemma TakenKeepsStock(b: Bucket, now: int, n: nat)
    requires Sound(b) && n > 0 && b.level >= n * UNIT
    ensures Admits(b, now) && Taken(b, now).level >= (n - 1) * UNIT
  {
    Monotone(b.perMin, 0, Max0(now - b.last));
    assert LevelAt(b, now) >= b.level;
  }

  /** A burst is allowed in full: the first requests, no more than any burst, all pass at whatever times. */
  lemma BurstIsAllowed(p: int, g: int, reqs: seq<Request>)
    requires (p > 0 ==> |reqs| <= Burst(p)) && (g > 0 ==> |reqs| <= Burst(g))
    ensures AllowedInAll(NewLimits(p, g), reqs) == |reqs|
  {
    StockedAllowsAll(NewLimits(p, g), reqs);
  }

  lemma {:induction false} StockedAllowsAll(l: Limits, reqs: seq<Request>)
    requires LimitsOk(l) && Stocked(l, |reqs|)
    ensures AllowedInAll(l, reqs) == |reqs|
    decreases |reqs|
  {
    if reqs != [] {
      StockedOneLess(l, reqs[0], |reqs|);
      AfterKeeps(l, reqs[0]);
      StockedAllowsAll(After(l, reqs[0]), reqs[1..]);
    }
  }

  /** All at one time, to one queue. */
  predicate AtOnce(reqs: seq<Request>, queue: string, now: int) {
    forall r :: r in reqs ==> NormalQueue(r.queue) == queue && r.at == now && r.later == now
  }

  /** The bucket, if there is one, has exactly n tokens at that time. */
  predicate Holds(bucket: Option<Bucket>, now: int, n: nat) {
    bucket.Some? ==> Sound(bucket.value) && LevelAt(bucket.value, now) == n * UNIT
  }

  /** What one request leaves of the tokens of a bucket that it asks. */
  lemma HoldsOneLess(b: Bucket, now: int, n: nat)
    requires Holds(Some(b), now, n)
    ensures Admits(b, now) <==> n > 0
    ensures Holds(Some(Taken(b, now)), now, if n > 0 then n - 1 else 0)
  {
    TakenIsSound(b, now);
    assert n > 0 ==> n * UNIT >= UNIT && (n - 1) * UNIT == n * UNIT - UNIT;
  }

  /** Of simultaneous requests as many pass as both buckets have tokens: the global one g, the queue's own q. */
  lemma {:induction false} TokensPass(l: Limits, reqs: seq<Request>, queue: string, now: int, g: nat, q: nat)
    requires LimitsOk(l) && AtOnce(reqs, queue, now)
    requires Holds(l.global, now, g) && Holds(QueueBucket(l, queue), now, q)
    requires (l.global.None? ==> g >= |reqs|) && (QueueBucket(l, queue).None? ==> q >= |reqs|)
    ensures AllowedInAll(l, reqs) == Min(|reqs|, Min(g, q))
    decreases |reqs|
  {
    if reqs != [] {
      var r, bucket := reqs[0], QueueBucket(l, queue);
      assert r in reqs;
      if l.global.Some? {
        HoldsOneLess(l.global.value, now, g);
      }
      if bucket.Some? {
        HoldsOneLess(bucket.value, now, q);
      }
      AfterKeeps(l, r);
      TokensPass(After(l, r), reqs[1..], queue, now, if g > 0 then g - 1 else 0,
                 if g == 0 || q == 0 then q else q - 1);
    }
  }

  lemma FreshHolds(p: int, now: int)
    requires p > 0
    ensures Holds(Some(Full(p)), now, Burst(p))
  {
    Monotone(p, 0, Max0(now));
  }

  /**
   Of n simultaneous requests to a fresh limiter exactly these pass: with one limit below ten a minute
   as many as it says, with one below sixty ten, and from sixty on a sixth of it, rounded down.
   */
  lemma AtOnceExactly(p: int, reqs: seq<Request>, queue: string, now: int)
    requires p > 0 && AtOnce(reqs, queue, now)
    ensures var n, perQueue, global := |reqs|, AllowedInAll(NewLimits(p, 0), reqs), AllowedInAll(NewLimits(0, p), reqs);
            && perQueue == global
            && (p < 10 ==> perQueue == Min(n, p))
            && (10 <= p < 60 ==> perQueue == Min(n, 10))
            && (60 <= p ==> perQueue == Min(n, p / 6))
  {
    FreshHolds(p, now);
    TokensPass(NewLimits(p, 0), reqs, queue, now, |reqs|, Burst(p));
    TokensPass(NewLimits(0, p), reqs, queue, now, Burst(p), |reqs|);
  }

  /** The bucket was last drawn on by this time, or is full. */
  predicate Behind(b: Bucket, now: int) {
    b.last <= now || b.level == Burst(b.perMin) * UNIT
  }

  predicate AllBehind(l: Limits, at: int, later: int) {
    && (l.global.Some? ==> Behind(l.global.value, at))
    && forall q :: q in l.perQueue ==> Behind(l.perQueue[q], later)
  }

  lemma {:induction false} RunStaysBehind(l: Limits, reqs: seq<Request>, at: int, later: int)
    requires LimitsOk(l) && AllBehind(l, at, later)
    requires forall r :: r in reqs ==> r.at <= at && r.later <= later
    ensures AllBehind(AfterAll(l, reqs), at, later)
    decreases |reqs|
  {
    if reqs != [] {
      assert reqs[0] in reqs;
      AfterKeeps(l, reqs[0]);
      RunStaysBehind(After(l, reqs[0]), reqs[1..], at, later);
    }
  }

  lemma RefilledInAMinute(b: Bucket, now: int, later: int)
    requires Sound(b) && Behind(b, now) && later >= now + UNIT
    ensures Admits(b, later)
  {
    if b.last <= now {
      Monotone(b.perMin, UNIT, later - b.last);
      Monotone(UNIT, 1, b.perMin);
    } else {
      Monotone(b.perMin, 0, Max0(later - b.last));
    }
    Monotone(UNIT, 1, Burst(b.perMin));
  }

  /**
   Whoever asked, and so whoever was turned away, is let in a minute later, as Retry-After says, if
   nobody else asks in between.
   */
  lemma RetryAfterSuffices(p: int, g: int, before: seq<Request>, r: Request, again: Request)
    requires InOrder(before + [r]) && again.at >= r.at + UNIT && again.later >= r.later + UNIT
    requires NormalQueue(again.queue) == NormalQueue(r.queue)
    ensures Allowed(After(AfterAll(NewLimits(p, g), before), r), again)
  {
    var l0 := NewLimits(p, g);
    var l := AfterAll(l0, before);
    forall e | e in before ensures e.at <= r.at && e.later <= r.later {
      var i :| 0 <= i < |before| && before[i] == e;
      assert (before + [r])[i] == e && (before + [r])[|before|] == r;
    }
    AfterAllKeeps(l0, before);
    RunStaysBehind(l0, before, r.at, r.later);
    AfterKeeps(l, r);
    RunStaysBehind(l, [r], r.at, r.later);
    assert AfterAll(l, [r]) == AfterAll(After(l, r), [r][1..]) == After(l, r);
    var l' := After(l, r);
    if l'.global.Some? {
      RefilledInAMinute(l'.global.value, r.at, again.at);
    }
    var bucket := QueueBucket(l', NormalQueue(again.queue));
    if bucket.Some? {
      RefilledInAMinute(bucket.value, r.later, again.later);
    }
  }

  /** The gap is long enough for a limit to gain a token; zero or less is no limit. */
  predicate Paces(perMin: int, gap: int) {
    gap >= 0 && (perMin > 0 ==> perMin * gap >= UNIT)
  }

  /** Each request comes that long after the one before, the first after the times `at` and `later`. */
  predicate Spaced(p: int, g: int, at: int, later: int, reqs: seq<Request>)
    decreases |reqs|
  {
    reqs == [] || (&& Paces(g, reqs[0].at - at) && Paces(p, reqs[0].later - later)
                   && Spaced(p, g, reqs[0].at, reqs[0].later, reqs[1..]))
  }

  lemma RefilledInPace(b: Bucket, before: int, now: int)
    requires Sound(b) && Behind(b, before) && Paces(b.perMin, now - before)
    ensures Admits(b, now) && Behind(Taken(b, now), now)
  {
    if b.last <= before {
      Monotone(b.perMin, now - before, now - b.last);
    } else {
      Monotone(b.perMin, 0, Max0(now - b.last));
    }
    Monotone(UNIT, 1, Burst(b.perMin));
  }

  lemma {:induction false} SpacedAllPass(l: Limits, reqs: seq<Request>, at: int, later: int)
    requires LimitsOk(l) && AllBehind(l, at, later)
    requires Spaced(l.perMinute, if l.global.Some? then l.global.value.perMin else 0, at, later, reqs)
    ensures AllowedInAll(l, reqs) == |reqs|
    decreases |reqs|
  {
    if reqs != [] {
      var r := reqs[0];
      var bucket := QueueBucket(l, NormalQueue(r.queue));
      if l.global.Some? {
        RefilledInPace(l.global.value, at, r.at);
      }
      if bucket.Some? {
        RefilledInPace(bucket.value, later, r.later);
      }
      AfterKeeps(l, r);
      SpacedAllPass(After(l, r), reqs[1..], r.at, r.later);
    }
  }

  /** Whatever was asked before, requests that keep the pace of the limits all pass: the rates are what they say. */
  lemma SpacedRequestsPass(p: int, g: int, before: seq<Request>, reqs: seq<Request>, at: int, later: int)
    requires forall r :: r in before ==> r.at <= at && r.later <= later
    requires Spaced(p, g, at, later, reqs)
    ensures AllowedInAll(AfterAll(NewLimits(p, g), before), reqs) == |reqs|
  {
    var l := NewLimits(p, g);
    AfterAllKeeps(l, before);
    RunStaysBehind(l, before, at, later);
    if g <= 0 {
      WithoutGlobal(p, g, at, later, reqs);
    }
    SpacedAllPass(AfterAll(l, before), reqs, at, later);
  }

  lemma {:induction false} WithoutGlobal(p: int, g: int, at: int, later: int, reqs: seq<Request>)
    requires g <= 0 && Spaced(p, g, at, later, reqs)
    ensures Spaced(p, 0, at, later, reqs)
    decreases |reqs|
  {
    if reqs != [] {
      WithoutGlobal(p, g, reqs[0].at, reqs[0].later, reqs[1..]);
    }
  }

  // ----- The code -----

  class TokenBucket {
    const perMin: int
    var level: int
    var last: int

    ghost function Value(): Bucket
      reads this
    {
      Bucket(perMin, level, last)
    }

    constructor (perMin: int)
      ensures Value() == Full(perMin)
    {
      this.perMin, level, last := perMin, Burst(perMin) * UNIT, 0;
    }

    method Allow(now: int) returns (ok: bool)
      modifies this
      ensures ok == Admits(old(Value()), now) && Value() == Taken(old(Value()), now)
    {
      var elapsed := 0;
      if now > last {
        elapsed := now - last;
      }
      var tokens := level + perMin * elapsed;
      if tokens > Burst(perMin) * UNIT {
        tokens := Burst(perMin) * UNIT;
      }
      ok := tokens - UNIT >= 0;
      if ok {
        level, last := tokens - UNIT, now;
      }
    }
  }

  class TokenBucketLimiter {
    var perQueue: map<string, TokenBucket>
    const global: TokenBucket?
    const perMinute: int

    /** No bucket serves two queues, nor a queue and the global limit. */
    ghost predicate Valid()
      reads this
    {
      && (forall q, other :: q in perQueue && other in perQueue && perQueue[q] == perQueue[other] ==> q == other)
      && (forall q :: q in perQueue ==> perQueue[q] != global)
    }

    ghost function Buckets(): set<object>
      reads this
    {
      (set q | q in perQueue :: perQueue[q]) + if global == null then {} else {global}
    }

    ghost function View(): Limits
      reads this, Buckets()
    {
      Limits(perMinute, map q | q in perQueue :: perQueue[q].Value(),
             if global == null then None else Some(global.Value()))
    }

    constructor (perQueuePerMin: int, globalPerMin: int)
      ensures Valid() && fresh(Buckets()) && View() == NewLimits(perQueuePerMin, globalPerMin)
    {
      perQueue, perMinute := map[], perQueuePerMin;
      if globalPerMin > 0 {
        global := new TokenBucket(globalPerMin);
      } else {
        global := null;
      }
    }

    /** The bucket of the queue, made at its first request; none when queues are not limited. */
    method GetQueueLimiter(queue: string) returns (bucket: TokenBucket?)
      requires Valid()
      modifies this
      ensures Valid() && fresh(Buckets() - old(Buckets()))
      ensures bucket == null <==> QueueBucket(old(View()), queue).None?
      ensures bucket != null ==> queue in perQueue && perQueue[queue] == bucket
      ensures View() == match QueueBucket(old(View()), queue)
                        case None => old(View())
                        case Some(b) => old(View()).(perQueue := old(View()).perQueue[queue := b])
    {
      if queue in perQueue {
        return perQueue[queue];
      }
      if perMinute <= 0 {
        return null;
      }
      bucket := new TokenBucket(perMinute);
      perQueue := perQueue[queue := bucket];
    }

    /** The second half of Allow: the bucket of the queue. */
    method AllowInQueue(name: string, later: int) returns (ok: bool)
      requires Valid()
      modifies this, Buckets()
      ensures Valid() && fresh(Buckets() - old(Buckets()))
      ensures match QueueBucket(old(View()), name)
              case None => ok && View() == old(View())
              case Some(b) =>
                && ok == Admits(b, later)
                && View() == old(View()).(perQueue := old(View()).perQueue[name := Taken(b, later)])
    {
      ghost var before := View();
      var bucket := GetQueueLimiter(name);
      if bucket == null {
        return true;
      }
      assert View().perQueue[name] == bucket.Value() == QueueBucket(before, name).value;
      ok := bucket.Allow(later);
    }

    method Allow(queue: string, now: int, later: int) returns (allowed: bool, retryAfterSec: int)
      requires Valid()
      modifies this, Buckets()
      ensures Valid() && fresh(Buckets() - old(Buckets()))
      ensures allowed == Allowed(old(View()), Request(queue, now, later))
      ensures retryAfterSec == if allowed then 0 else 60
      ensures View() == After(old(View()), Request(queue, now, later))
    {
      var name := queue;
      if queue == "" {
        name := "default";
      }
      ghost var before := View();
      if global != null {
        var ok := global.Allow(now);
        assert View().perQueue == before.perQueue;
        if !ok {
          return false, 60;
        }
      }
      var ok := AllowInQueue(name, later);
      return ok, if ok then 0 else 60;
    }
  }
}
