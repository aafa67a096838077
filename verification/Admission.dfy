// The history of an admission gate, and what the history alone says of its decisions.  A hit
// is judged in memory over a sliding window or in the database over fixed buckets.
module Admission {

  /** One hit that was judged: by the database buckets or in memory, let through or not. */
  datatype Decision = Decision(key: string, at: real, viaDb: bool, accepted: bool)

  type Log = seq<Decision>

  // ----- Counting -----

  /** The times at which the memory window let a hit of this key through. */
  function Times(log: Log, key: string): seq<real> {
    if log == [] then []
    else
      var d, earlier := log[|log| - 1], Times(log[..|log| - 1], key);
      if d.key == key && !d.viaDb && d.accepted then earlier + [d.at] else earlier
  }

  /** How many of these times lie in the closed span [lo, hi]. */
  function InSpan(times: seq<real>, lo: real, hi: real): nat {
    if times == [] then 0
    else InSpan(times[..|times| - 1], lo, hi) + if lo <= times[|times| - 1] <= hi then 1 else 0
  }

  /** The fixed bucket a time falls into: a positive window cuts time at its multiples. */
  function Bucket(t: real, window: int): int
    requires window != 0
  {
    (t / (window as real)).Floor
  }

  /** The hits of this key the database has counted in one bucket, let through or not. */
  function BucketHits(log: Log, key: string, window: int, bucket: int): nat
    requires window != 0
  {
    if log == [] then 0
    else
      var d := log[|log| - 1];
      BucketHits(log[..|log| - 1], key, window, bucket) +
      if d.key == key && d.viaDb && Bucket(d.at, window) == bucket then 1 else 0
  }

  /** All hits of this key let through in [lo, hi], whichever way they were judged. */
  function Accepts(log: Log, key: string, lo: real, hi: real): nat {
    if log == [] then 0
    else
      var d := log[|log| - 1];
      Accepts(log[..|log| - 1], key, lo, hi) + if d.key == key && d.accepted && lo <= d.at <= hi then 1 else 0
  }

  /** Those of them the database let through in one bucket. */
  function BucketAccepts(log: Log, key: string, window: int, bucket: int): nat
    requires window != 0
  {
    if log == [] then 0
    else
      var d := log[|log| - 1];
      BucketAccepts(log[..|log| - 1], key, window, bucket) +
      if d.key == key && d.viaDb && d.accepted && Bucket(d.at, window) == bucket then 1 else 0
  }

  function Cap(limit: int): nat {
    if limit > 0 then limit else 0
  }

  // ----- The rule -----

  /** In memory: fewer than limit earlier accepts in the window that ends now.  In the database:
      among the first limit hits of the bucket (a negative window has no such rule). */
  ghost predicate Rule(limit: int, window: int, before: Log, d: Decision) {
    if d.viaDb then
      && window != 0
      && (window > 0 ==> (d.accepted <==> BucketHits(before, d.key, window, Bucket(d.at, window)) < limit))
    else
      d.accepted <==> InSpan(Times(before, d.key), d.at - window as real, d.at) < limit
  }

  /** Time never runs backwards, and once memory has judged a hit the database judges no more. */
  ghost predicate Follows(before: Log, d: Decision) {
    forall e :: e in before ==> e.at <= d.at && (d.viaDb ==> e.viaDb)
  }

  ghost predicate Admitted(limit: int, window: int, log: Log) {
    log == [] || (
      var before, d := log[..|log| - 1], log[|log| - 1];
      Admitted(limit, window, before) && Rule(limit, window, before, d) && Follows(before, d))
  }

  lemma Admit(limit: int, window: int, log: Log, d: Decision)
    requires Admitted(limit, window, log) && Rule(limit, window, log, d) && Follows(log, d)
    ensures Admitted(limit, window, log + [d])
  {
    assert (log + [d])[..|log|] == log;
  }

  // ----- The rule, counted on the history -----

  /** The earlier hits of the key that memory let through no longer ago than one window. */
  ghost function InWindow(log: Log, n: nat, key: string, window: int, now: real): set<nat>
    requires n <= |log|
  {
    set k: nat | k < n && log[k].key == key && !log[k].viaDb && log[k].accepted
                 && now - window as real <= log[k].at <= now
  }

  /** The earlier hits of the key that the database counted between the same two multiples of the window. */
  ghost function InBucket(log: Log, n: nat, key: string, window: int, now: real): set<nat>
    requires n <= |log| && window != 0
  {
    set k: nat | k < n && log[k].key == key && log[k].viaDb
                 && (log[k].at / window as real).Floor == (now / window as real).Floor
  }

  lemma InWindowNext(log: Log, n: nat, key: string, window: int, now: real)
    requires n < |log|
    ensures var earlier, d := InWindow(log, n, key, window, now), log[n];
            && n !in earlier
            && InWindow(log, n + 1, key, window, now) ==
               if d.key == key && !d.viaDb && d.accepted && now - window as real <= d.at <= now then earlier + {n}
               else earlier
  {
  }

  lemma {:induction false} WindowCounts(log: Log, n: nat, key: string, window: int, now: real)
    requires n <= |log|
    ensures |InWindow(log, n, key, window, now)| == InSpan(Times(log[..n], key), now - window as real, now)
  {
    if n > 0 {
      hide InWindow, InSpan, Times;
      var d := log[n - 1];
      WindowCounts(log, n - 1, key, window, now);
      InWindowNext(log, n - 1, key, window, now);
      assert log[..n] == log[..n - 1] + [d];
      TimesPush(log[..n - 1], d, key);
      InSpanPush(Times(log[..n - 1], key), d.at, now - window as real, now);
    }
  }

  lemma InBucketNext(log: Log, n: nat, key: string, window: int, now: real)
    requires n < |log| && window != 0
    ensures var earlier, d := InBucket(log, n, key, window, now), log[n];
            && n !in earlier
            && InBucket(log, n + 1, key, window, now) ==
               if d.key == key && d.viaDb && Bucket(d.at, window) == Bucket(now, window) then earlier + {n} else earlier
  {
  }

  lemma {:induction false} BucketCounts(log: Log, n: nat, key: string, window: int, now: real)
    requires n <= |log| && window != 0
    ensures |InBucket(log, n, key, window, now)| == BucketHits(log[..n], key, window, Bucket(now, window))
  {
    hide InBucket, Bucket;
    if n == 0 {
      EmptyBucket(log, key, window, now);
    } else {
      BucketCounts(log, n - 1, key, window, now);
      InBucketNext(log, n - 1, key, window, now);
      assert log[..n][..n - 1] == log[..n - 1];
    }
  }

  lemma EmptyBucket(log: Log, key: string, window: int, now: real)
    requires window != 0
    ensures InBucket(log, 0, key, window, now) == {}
  {
  }

  lemma {:induction false} RuleAt(limit: int, window: int, log: Log, i: nat)
    requires Admitted(limit, window, log) && i < |log|
    ensures Rule(limit, window, log[..i], log[i])
  {
    hide Rule;
    var n := |log| - 1;
    if i < n {
      RuleAt(limit, window, log[..n], i);
      assert log[..n][..i] == log[..i];
    }
  }

  /** Every decision of every history: memory lets a hit through exactly when fewer than limit
      earlier ones of the key were let through within the window, and the database, for a positive
      window, exactly when it has counted fewer than limit in the bucket. */
  lemma EveryHitDecided(limit: int, window: int, log: Log, i: nat)
    requires Admitted(limit, window, log) && i < |log|
    ensures var d := log[i];
            if d.viaDb then
              && window != 0
              && (window > 0 ==> (d.accepted <==> |InBucket(log, i, d.key, window, d.at)| < limit))
            else d.accepted <==> |InWindow(log, i, d.key, window, d.at)| < limit
  {
    var d := log[i];
    RuleAt(limit, window, log, i);
    if d.viaDb {
      BucketCounts(log, i, d.key, window, d.at);
    } else {
      WindowCounts(log, i, d.key, window, d.at);
    }
  }

  // ----- The sliding window -----

  lemma TimesPush(log: Log, d: Decision, key: string)
    ensures Times(log + [d], key) == if d.key == key && !d.viaDb && d.accepted then Times(log, key) + [d.at]
            else Times(log, key)
  {
    assert (log + [d])[..|log|] == log;
  }

  ghost predicate Sorted(times: seq<real>) {
    forall i, j :: 0 <= i < j < |times| ==> times[i] <= times[j]
  }

  lemma {:induction false} TimesUpTo(log: Log, key: string, t: real)
    requires forall d :: d in log ==> d.at <= t
    ensures forall i :: 0 <= i < |Times(log, key)| ==> Times(log, key)[i] <= t
  {
    if log != [] {
      TimesUpTo(log[..|log| - 1], key, t);
    }
  }

  lemma {:induction false} TimesSorted(limit: int, window: int, log: Log, key: string)
    requires Admitted(limit, window, log)
    ensures Sorted(Times(log, key))
  {
    if log != [] {
      TimesSorted(limit, window, log[..|log| - 1], key);
      TimesUpTo(log[..|log| - 1], key, log[|log| - 1].at);
    }
  }

  lemma {:induction false} InSpanAppend(a: seq<real>, b: seq<real>, lo: real, hi: real)
    ensures InSpan(a + b, lo, hi) == InSpan(a, lo, hi) + InSpan(b, lo, hi)
  {
    if b == [] {
      assert a + b == a;
    } else {
      assert (a + b)[..|a + b| - 1] == a + b[..|b| - 1];
      InSpanAppend(a, b[..|b| - 1], lo, hi);
    }
  }

  lemma InSpanPush(times: seq<real>, t: real, lo: real, hi: real)
    ensures InSpan(times + [t], lo, hi) == InSpan(times, lo, hi) + if lo <= t <= hi then 1 else 0
  {
    assert (times + [t])[..|times|] == times;
  }

  lemma {:induction false} InSpanAll(times: seq<real>, lo: real, hi: real)
    requires forall i :: 0 <= i < |times| ==> lo <= times[i] <= hi
    ensures InSpan(times, lo, hi) == |times|
  {
    if times != [] {
      InSpanAll(times[..|times| - 1], lo, hi);
    }
  }

  lemma {:induction false} InSpanNone(times: seq<real>, lo: real, hi: real)
    requires forall i :: 0 <= i < |times| ==> times[i] < lo
    ensures InSpan(times, lo, hi) == 0
  {
    if times != [] {
      InSpanNone(times[..|times| - 1], lo, hi);
    }
  }

  lemma {:induction false} InSpanWidens(times: seq<real>, lo: real, hi: real, lo': real, hi': real)
    requires forall i :: 0 <= i < |times| && lo <= times[i] <= hi ==> lo' <= times[i] <= hi'
    ensures InSpan(times, lo, hi) <= InSpan(times, lo', hi')
  {
    if times != [] {
      InSpanWidens(times[..|times| - 1], lo, hi, lo', hi');
    }
  }

  /** A span of one window holds at most limit accepts of the memory window. */
  lemma {:induction false} SpanBound(limit: int, window: int, log: Log, key: string, lo: real)
    requires Admitted(limit, window, log)
    ensures InSpan(Times(log, key), lo, lo + window as real) <= Cap(limit)
  {
    if log != [] {
      var before, d := log[..|log| - 1], log[|log| - 1];
      SpanBound(limit, window, before, key, lo);
      if d.key == key && !d.viaDb && d.accepted {
        InSpanPush(Times(before, key), d.at, lo, lo + window as real);
        if lo <= d.at <= lo + window as real {
          TimesUpTo(before, key, d.at);
          InSpanWidens(Times(before, key), lo, lo + window as real, d.at - window as real, d.at);
        }
      }
    }
  }

  lemma SameHitSameDecision(limit: int, window: int, before: Log, d: Decision, e: Decision)
    requires Rule(limit, window, before, d) && Rule(limit, window, before, e)
    requires d.key == e.key && d.at == e.at && !d.viaDb && !e.viaDb
    ensures d == e
  {}

  /** The decisions are the rule's alone: two gates that saw the same hits decided the same. */
  lemma {:induction false} SameHitsSameDecisions(limit: int, window: int, a: Log, b: Log)
    requires Admitted(limit, window, a) && Admitted(limit, window, b) && |a| == |b|
    requires forall i :: 0 <= i < |a| ==> a[i].key == b[i].key && a[i].at == b[i].at && !a[i].viaDb && !b[i].viaDb
    ensures a == b
  {
    hide InSpan, Times, Follows, Rule;
    if a != [] {
      SameHitsSameDecisions(limit, window, a[..|a| - 1], b[..|b| - 1]);
      SameHitSameDecision(limit, window, a[..|a| - 1], a[|a| - 1], b[|b| - 1]);
      assert a == a[..|a| - 1] + [a[|a| - 1]] && b == b[..|b| - 1] + [b[|b| - 1]];
    }
  }

  // ----- The buckets -----

  lemma Scale(p: real, q: real, w: real)
    requires p < q && 0.0 < w
    ensures p * w < q * w
  {}

  lemma Quotient(x: real, w: real, q: real)
    requires w != 0.0 && q * w == x
    ensures x / w == q
  {}

  /** A bucket holds the times from its own multiple of the window on, up to the next one; for a
      negative window down to it. */
  lemma BucketIs(t: real, window: int)
    requires window != 0
    ensures var start, w := Bucket(t, window) as real * window as real, window as real;
            if window > 0 then start <= t < start + w else start + w < t <= start
  {
    var lo, w := Bucket(t, window) as real, window as real;
    if window > 0 {
      Between(lo, t / w, w, t);
    } else {
      Negated(t / w, w);
      Between(lo, t / w, -w, -t);
      Negated(lo, w);
    }
  }

  lemma Between(lo: real, q: real, w: real, x: real)
    requires lo <= q < lo + 1.0 && 0.0 < w && q * w == x
    ensures lo * w <= x < lo * w + w
  {
    var hi := lo + 1.0;
    Scale(q, hi, w);
    OneMoreTimes(lo, w);
    assert x < hi * w;
    if lo < q { Scale(lo, q, w); }
  }

  lemma OneMoreTimes(p: real, w: real)
    ensures (p + 1.0) * w == p * w + w
  {}

  lemma Negated(p: real, w: real)
    ensures p * -w == -(p * w)
  {}

  lemma BucketMonotone(s: real, t: real, window: int)
    requires window > 0 && s <= t
    ensures Bucket(s, window) <= Bucket(t, window)
  {
    var w := window as real;
    var p, q := s / w, t / w;
    if q < p {
      Scale(q, p, w);
      assert false;
    }
  }

  lemma BucketNext(t: real, window: int)
    requires window > 0
    ensures Bucket(t + window as real, window) == Bucket(t, window) + 1
  {
    var w := window as real;
    Quotient(t + w, w, t / w + 1.0);
  }

  /** Of the hits in a bucket exactly the first limit were let through. */
  lemma {:induction false} BucketTakesFirst(limit: int, window: int, log: Log, key: string, bucket: int)
    requires window > 0 && Admitted(limit, window, log)
    ensures var n := BucketHits(log, key, window, bucket);
            BucketAccepts(log, key, window, bucket) == if n < limit then n else Cap(limit)
  {
    if log != [] {
      BucketTakesFirst(limit, window, log[..|log| - 1], key, bucket);
    }
  }

  lemma TwoBuckets(lo: real, t: real, window: int)
    requires window > 0 && lo <= t <= lo + window as real
    ensures Bucket(t, window) == Bucket(lo, window) || Bucket(t, window) == Bucket(lo, window) + 1
  {
    BucketMonotone(lo, t, window);
    BucketMonotone(t, lo + window as real, window);
    BucketNext(lo, window);
  }

  /** What a span of one window holds: the accepts of two neighbouring buckets and of memory. */
  lemma {:induction false} SpanSplits(limit: int, window: int, log: Log, key: string, lo: real)
    requires window > 0 && Admitted(limit, window, log)
    ensures var b, hi := Bucket(lo, window), lo + window as real;
            Accepts(log, key, lo, hi) <=
              BucketAccepts(log, key, window, b) + BucketAccepts(log, key, window, b + 1)
                + InSpan(Times(log, key), lo, hi)
  {
    if log != [] {
      hide Bucket, Rule, Follows;
      var before, d := log[..|log| - 1], log[|log| - 1];
      SpanSplits(limit, window, before, key, lo);
      if lo <= d.at <= lo + window as real {
        TwoBuckets(lo, d.at, window);
      }
      if d.key == key && !d.viaDb && d.accepted {
        InSpanPush(Times(before, key), d.at, lo, lo + window as real);
      }
    }
  }

  ghost predicate AllDb(log: Log) {
    forall d :: d in log ==> d.viaDb
  }

  lemma {:induction false} NoTimes(log: Log, key: string)
    requires AllDb(log)
    ensures Times(log, key) == []
  {
    if log != [] {
      NoTimes(log[..|log| - 1], key);
    }
  }

  /** Any span of one window holds at most three times the limit, and at most twice while the
      database has answered every time. */
  lemma {:induction false} SpanBoundAcrossFailover(limit: int, window: int, log: Log, key: string, lo: real)
    requires window > 0 && Admitted(limit, window, log)
    ensures Accepts(log, key, lo, lo + window as real) <= 3 * Cap(limit)
    ensures AllDb(log) ==> Accepts(log, key, lo, lo + window as real) <= 2 * Cap(limit)
  {
    SpanSplits(limit, window, log, key, lo);
    SpanBound(limit, window, log, key, lo);
    BucketTakesFirst(limit, window, log, key, Bucket(lo, window));
    BucketTakesFirst(limit, window, log, key, Bucket(lo, window) + 1);
    if AllDb(log) {
      NoTimes(log, key);
    }
  }

  /** Both bounds are reached: with one hit a minute, two or three pass within a second. */
  lemma SpanBoundsAreTight()
    ensures var db := [Decision("k", 59.0, true, true), Decision("k", 60.0, true, true)];
            var both := db + [Decision("k", 60.0, false, true)];
            && Admitted(1, 60, db) && Accepts(db, "k", 59.0, 119.0) == 2
            && Admitted(1, 60, both) && Accepts(both, "k", 59.0, 119.0) == 3
  {
    var a, b, c := Decision("k", 59.0, true, true), Decision("k", 60.0, true, true), Decision("k", 60.0, false, true);
    assert Bucket(59.0, 60) == 0 && Bucket(60.0, 60) == 1;
    assert [a, b][..1] == [a] && [a][..0] == [] && ([a, b] + [c])[..2] == [a, b];
    Admit(1, 60, [], a);
    assert [] + [a] == [a];
    Admit(1, 60, [a], b);
    assert [a] + [b] == [a, b];
    NoTimes([a, b], "k");
    Admit(1, 60, [a, b], c);
  }
}
