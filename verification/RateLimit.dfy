/** The fixed-window limiter: one stored bucket per subject and window, shared by all
    replicas, with a cleanup of expired buckets that runs when it gets to it. */
module RateLimit {
  import opened Common

  const CLEANUP_MS := 300_000

  datatype Bucket = Bucket(count: nat, expiresAt: int)

  datatype Decision = Decision(allowed: bool, retryAfterSeconds: int)

  /** An admitted request. */
  datatype Entry = Entry(subject: string, at: int)

  function WindowOf(at: int, windowMs: int): int
    requires windowMs > 0
  {
    at / windowMs * windowMs
  }

  lemma WindowHolds(at: int, windowMs: int)
    requires windowMs > 0
    ensures WindowOf(at, windowMs) <= at < WindowOf(at, windowMs) + windowMs
  {}

  lemma WindowsAreOrdered(a: int, b: int, windowMs: int)
    requires windowMs > 0 && a <= b
    ensures WindowOf(a, windowMs) <= WindowOf(b, windowMs)
  {
    DivisionIsMonotone(a, b, windowMs);
    ProductIsMonotone(a / windowMs, b / windowMs, windowMs);
  }

  lemma DivisionIsMonotone(a: int, b: int, d: int)
    requires d > 0 && a <= b
    ensures a / d <= b / d
  {
    if a / d > b / d {
      ProductIsMonotone(b / d + 1, a / d, d);
    }
  }

  lemma ProductIsMonotone(a: int, b: int, d: int)
    requires d > 0 && a <= b
    ensures a * d <= b * d
  {}

  /** A moment no more than a window's length later is in the same window or the next. */
  lemma NextWindow(a: int, at: int, windowMs: int)
    requires windowMs > 0 && a <= at <= a + windowMs
    ensures WindowOf(at, windowMs) in {WindowOf(a, windowMs), WindowOf(a, windowMs) + windowMs}
  {
    DivisionIsMonotone(a, at, windowMs);
    DivisionIsMonotone(at, a + windowMs, windowMs);
    assert (a + windowMs) / windowMs == a / windowMs + 1 by {
      assert a + windowMs == (a / windowMs + 1) * windowMs + a % windowMs;
      QuotientIsUnique(a + windowMs, windowMs, a / windowMs + 1, a % windowMs);
    }
    if at / windowMs == a / windowMs + 1 {
      assert (a / windowMs + 1) * windowMs == a / windowMs * windowMs + windowMs;
    }
  }

  lemma QuotientIsUnique(n: int, d: int, q: int, r: int)
    requires d > 0 && 0 <= r < d && n == q * d + r
    ensures n / d == q
  {
    if n / d < q { ProductIsMonotone(n / d + 1, q, d); }
    if n / d > q { ProductIsMonotone(q + 1, n / d, d); }
  }

  // ----- counting -----

  function InWindow(log: seq<Entry>, subject: string, window: int, windowMs: int): nat
    requires windowMs > 0
  {
    if log == [] then 0
    else
      var last := log[|log| - 1];
      InWindow(log[..|log| - 1], subject, window, windowMs)
      + if last.subject == subject && WindowOf(last.at, windowMs) == window then 1 else 0
  }

  /** Admitted from `a` up to one window's length later. */
  function InInterval(log: seq<Entry>, subject: string, a: int, windowMs: int): nat {
    if log == [] then 0
    else
      var last := log[|log| - 1];
      InInterval(log[..|log| - 1], subject, a, windowMs)
      + if last.subject == subject && a <= last.at <= a + windowMs then 1 else 0
  }

  lemma {:induction false} IntervalIsTwoWindows(log: seq<Entry>, subject: string, a: int, windowMs: int)
    requires windowMs > 0
    ensures var w := WindowOf(a, windowMs);
            InInterval(log, subject, a, windowMs)
            <= InWindow(log, subject, w, windowMs) + InWindow(log, subject, w + windowMs, windowMs)
    decreases |log|
  {
    if log != [] {
      IntervalIsTwoWindows(log[..|log| - 1], subject, a, windowMs);
      var last := log[|log| - 1];
      if a <= last.at <= a + windowMs { NextWindow(a, last.at, windowMs); }
    }
  }

  lemma Append(log: seq<Entry>, entry: Entry, subject: string, window: int, windowMs: int)
    requires windowMs > 0
    ensures InWindow(log + [entry], subject, window, windowMs)
            == InWindow(log, subject, window, windowMs)
               + if entry.subject == subject && WindowOf(entry.at, windowMs) == window then 1 else 0
  {
    assert (log + [entry])[..|log|] == log;
  }

  // ----- the limiter of one scope -----

  /** Until a window is over, its bucket tells how many requests were admitted: as many
      as it counts, up to the limit. */
  predicate Counted(limit: nat, windowMs: int, latest: int, buckets: map<(string, int), Bucket>,
                    log: seq<Entry>, subject: string, window: int)
    requires windowMs > 0
  {
    var admitted := InWindow(log, subject, window, windowMs);
    && admitted <= limit
    && (window + windowMs > latest ==>
          admitted == if (subject, window) in buckets then Min(limit, buckets[(subject, window)].count) else 0)
  }

  /** The bucket with one more place taken. */
  function Taken(buckets: map<(string, int), Bucket>, key: (string, int), windowMs: int): Bucket {
    if key in buckets then buckets[key].(count := buckets[key].count + 1) else Bucket(1, key.1 + windowMs)
  }

  lemma TakingKeeps(limit: nat, windowMs: int, latest: int, buckets: map<(string, int), Bucket>,
                    log: seq<Entry>, subject: string, now: int, s: string, w: int)
    requires windowMs > 0 && latest <= now && Counted(limit, windowMs, latest, buckets, log, s, w)
    ensures var key := (subject, WindowOf(now, windowMs));
            var bucket := Taken(buckets, key, windowMs);
            Counted(limit, windowMs, now, buckets[key := bucket],
                    if bucket.count <= limit then log + [Entry(subject, now)] else log, s, w)
  {
    WindowHolds(now, windowMs);
    Append(log, Entry(subject, now), s, w, windowMs);
  }

  class RateLimitService {
    const limit: nat
    const windowMs: int
    var buckets: map<(string, int), Bucket>
    var nextCleanupAt: int
    ghost var latest: int        // the time of the latest request
    ghost var log: seq<Entry>    // the admitted ones

    ghost predicate BucketsFit()
      reads this
      requires windowMs > 0
    {
      forall key | key in buckets :: buckets[key].expiresAt == key.1 + windowMs
    }

    ghost predicate Valid()
      reads this
    {
      && windowMs > 0 && BucketsFit()
      && forall subject, window :: Counted(limit, windowMs, latest, buckets, log, subject, window)
    }

    constructor (limit: nat, windowMs: int, start: int)
      requires windowMs > 0
      ensures Valid() && log == [] && latest == start && this.limit == limit && this.windowMs == windowMs
    {
      this.limit, this.windowMs, this.buckets, this.nextCleanupAt := limit, windowMs, map[], 0;
      this.latest, this.log := start, [];
    }

    /** Takes one place in the bucket of the current window: a request is admitted
        exactly while this window has admitted fewer than the limit. A refused request
        that waits as long as it is told comes back in a later window. */
    method Consume(subject: string, now: int) returns (decision: Decision)
      requires Valid() && latest <= now
      modifies this
      ensures Valid() && latest == now
      ensures log == if decision.allowed then old(log) + [Entry(subject, now)] else old(log)
      ensures decision.allowed <==> InWindow(old(log), subject, WindowOf(now, windowMs), windowMs) < limit
      // The wait is the shortest, in whole seconds, that leads into a later window.
      ensures decision.retryAfterSeconds >= 1
      ensures decision.retryAfterSeconds == 1
              || WindowOf(now + 1_000 * (decision.retryAfterSeconds - 1), windowMs) == WindowOf(now, windowMs)
      ensures WindowOf(now + 1_000 * decision.retryAfterSeconds, windowMs) > WindowOf(now, windowMs)
    {
      var window := WindowOf(now, windowMs);
      var key := (subject, window);
      WindowHolds(now, windowMs);
      assert Counted(limit, windowMs, latest, buckets, log, subject, window);
      var bucket := Taken(buckets, key, windowMs);
      buckets := buckets[key := bucket];
      if now >= nextCleanupAt { nextCleanupAt := now + CLEANUP_MS; }
      var wait := bucket.expiresAt - now;
      decision := Decision(bucket.count <= limit, Max(1, (wait + 999) / 1_000));
      latest := now;
      if decision.allowed { log := log + [Entry(subject, now)]; }
      forall s, w ensures Counted(limit, windowMs, now, buckets, log, s, w) {
        TakingKeeps(limit, windowMs, old(latest), old(buckets), old(log), subject, now, s, w);
      }
      LaterWindow(now, decision.retryAfterSeconds, windowMs);
      if decision.retryAfterSeconds > 1 { SameWindow(now, now + 1_000 * (decision.retryAfterSeconds - 1), windowMs); }
    }

    /** Deletes the buckets that expired before `now`, which some request has seen. */
    method Cleanup(now: int)
      requires Valid() && now <= latest
      modifies `buckets
      ensures Valid()
      ensures forall key :: key in buckets <==> key in old(buckets) && old(buckets)[key].expiresAt >= now
      ensures forall key | key in buckets :: buckets[key] == old(buckets)[key]
    {
      buckets := map key | key in buckets && buckets[key].expiresAt >= now :: buckets[key];
      forall s, w ensures Counted(limit, windowMs, latest, buckets, log, s, w) {
        assert Counted(limit, windowMs, latest, old(buckets), log, s, w);
      }
    }

    /** No window admits more than the limit, and no stretch of a window's length more
        than twice the limit. */
    lemma Bounds(subject: string, a: int)
      requires Valid()
      ensures InWindow(log, subject, WindowOf(a, windowMs), windowMs) <= limit
      ensures InInterval(log, subject, a, windowMs) <= 2 * limit
    {
      var w := WindowOf(a, windowMs);
      assert Counted(limit, windowMs, latest, buckets, log, subject, w);
      assert Counted(limit, windowMs, latest, buckets, log, subject, w + windowMs);
      IntervalIsTwoWindows(log, subject, a, windowMs);
    }
  }

  lemma SameWindow(now: int, at: int, windowMs: int)
    requires windowMs > 0 && now <= at < WindowOf(now, windowMs) + windowMs
    ensures WindowOf(at, windowMs) == WindowOf(now, windowMs)
  {
    WindowHolds(now, windowMs);
    QuotientIsUnique(at, windowMs, now / windowMs, at - WindowOf(now, windowMs));
  }

  /** Waiting in whole seconds until the window's end is waiting long enough. */
  lemma LaterWindow(now: int, seconds: int, windowMs: int)
    requires windowMs > 0 && 1_000 * seconds >= WindowOf(now, windowMs) + windowMs - now
    ensures WindowOf(now + 1_000 * seconds, windowMs) > WindowOf(now, windowMs)
  {
    WindowHolds(now + 1_000 * seconds, windowMs);
    WindowHolds(now, windowMs);
    WindowsAreOrdered(now, now + 1_000 * seconds, windowMs);
  }
}
