// RateLimitMiddleware: a sliding window per key in memory, fixed buckets in the database, and
// the switch to memory that is never undone.  The ghost history says what each hit was told.
module RateLimiter {
  import opened Prelude
  import opened Admission

  datatype Row = Row(hits: nat, updatedAt: real)

  function Max(a: int, b: int): int {
    if a < b then b else a
  }

  // ----- The keys that may be evicted -----

  predicate IsStale(q: seq<real>, cutoff: real) {
    q == [] || q[|q| - 1] < cutoff
  }

  /** The stale keys, in the order in which the dictionary holds them. */
  function StaleKeys(order: seq<string>, hits: map<string, seq<real>>, cutoff: real): seq<string>
    requires forall k :: k in order ==> k in hits
  {
    if order == [] then []
    else
      var k := order[|order| - 1];
      var earlier := StaleKeys(order[..|order| - 1], hits, cutoff);
      if IsStale(hits[k], cutoff) then earlier + [k] else earlier
  }

  function Without(order: seq<string>, k: string): seq<string> {
    if order == [] then []
    else
      var earlier := Without(order[..|order| - 1], k);
      if order[|order| - 1] == k then earlier else earlier + [order[|order| - 1]]
  }

  ghost predicate Distinct(s: seq<string>) {
    forall i, j :: 0 <= i < j < |s| ==> s[i] != s[j]
  }

  lemma {:induction false} WithoutHas(order: seq<string>, k: string, x: string)
    ensures x in Without(order, k) <==> x in order && x != k
  {
    if order != [] {
      WithoutHas(order[..|order| - 1], k, x);
      assert order == order[..|order| - 1] + [order[|order| - 1]];
    }
  }

  lemma {:induction false} WithoutDistinct(order: seq<string>, k: string)
    requires Distinct(order)
    ensures Distinct(Without(order, k))
  {
    if order != [] {
      WithoutDistinct(order[..|order| - 1], k);
      var init := order[..|order| - 1];
      var kept := Without(init, k);
      forall i | 0 <= i < |kept|
        ensures kept[i] in init
      {
        WithoutHas(init, k, kept[i]);
      }
    }
  }

  lemma {:induction false} StaleKeysAre(order: seq<string>, hits: map<string, seq<real>>, cutoff: real)
    requires Distinct(order) && forall k :: k in order ==> k in hits
    ensures Distinct(StaleKeys(order, hits, cutoff))
    ensures forall k :: k in StaleKeys(order, hits, cutoff) <==> k in order && IsStale(hits[k], cutoff)
  {
    if order != [] {
      StaleKeysAre(order[..|order| - 1], hits, cutoff);
      assert order == order[..|order| - 1] + [order[|order| - 1]];
    }
  }

  ghost function Elements(s: seq<string>): set<string> {
    set k | k in s
  }

  lemma NoElements()
    ensures Elements([]) == {}
  {}

  lemma OneMore(hits: map<string, seq<real>>, s: seq<string>, i: nat)
    requires i < |s|
    ensures hits - Elements(s[..i]) - {s[i]} == hits - Elements(s[..i + 1])
  {
    assert s[..i + 1] == s[..i] + [s[i]];
  }

  /** The first stale keys in dictionary order, as many as there are keys over the maximum. */
  ghost function Evicted(order: seq<string>, hits: map<string, seq<real>>, cutoff: real, maxKeys: int): set<string>
    requires (forall k :: k in order ==> k in hits) && |hits| > maxKeys
  {
    var stale := StaleKeys(order, hits, cutoff);
    Elements(if |stale| < |hits| - maxKeys then stale else stale[..|hits| - maxKeys])
  }

  lemma {:induction false} WithoutConcat(a: seq<string>, b: seq<string>, k: string)
    ensures Without(a + b, k) == Without(a, k) + Without(b, k)
  {
    if b == [] {
      assert a + b == a;
    } else {
      var n := |b| - 1;
      WithoutConcat(a, b[..n], k);
      assert (a + b)[..|a + b| - 1] == a + b[..n];
    }
  }

  lemma WithoutOne(x: string, k: string)
    ensures Without([x], k) == if x == k then [] else [x]
  {
  }

  /** The first n stale keys take with them every stale key that stands before one of them. */
  lemma {:induction false} StalePrefix(order: seq<string>, hits: map<string, seq<real>>, cutoff: real, n: nat)
    requires Distinct(order) && (forall k :: k in order ==> k in hits) && n <= |StaleKeys(order, hits, cutoff)|
    ensures var gone := StaleKeys(order, hits, cutoff)[..n];
            forall i, j ::
                0 <= i < j < |order| && order[j] in gone && IsStale(hits[order[i]], cutoff) ==> order[i] in gone
  {
    if order != [] {
      hide IsStale;
      var init, k := order[..|order| - 1], order[|order| - 1];
      var earlier := StaleKeys(init, hits, cutoff);
      StaleKeysAre(init, hits, cutoff);
      assert k !in init;
      if n <= |earlier| {
        StalePrefix(init, hits, cutoff, n);
        assert StaleKeys(order, hits, cutoff)[..n] == earlier[..n];
      } else {
        assert StaleKeys(order, hits, cutoff)[..n] == earlier + [k];
      }
    }
  }

  /** The keys that go: each empty or with no hit since the cutoff, the first of those in
      dictionary order, and as many of them as there are keys too many. */
  lemma EvictedAre(order: seq<string>, hits: map<string, seq<real>>, cutoff: real, maxKeys: int)
    requires Distinct(order) && (forall k :: k in order <==> k in hits) && |hits| > maxKeys
    ensures var gone := Evicted(order, hits, cutoff, maxKeys);
            && (forall k :: k in gone ==> k in hits && (hits[k] == [] || hits[k][|hits[k]| - 1] < cutoff))
            && (forall i, j :: 0 <= i < j < |order| && order[j] in gone
                               && (hits[order[i]] == [] || hits[order[i]][|hits[order[i]]| - 1] < cutoff) ==>
                  order[i] in gone)
            && |gone| <= |hits| - maxKeys
            && (|gone| < |hits| - maxKeys ==>
                  forall k :: k in hits && (hits[k] == [] || hits[k][|hits[k]| - 1] < cutoff) ==> k in gone)
  {
    StaleKeysAre(order, hits, cutoff);
    var stale := StaleKeys(order, hits, cutoff);
    var n := if |stale| < |hits| - maxKeys then |stale| else |hits| - maxKeys;
    StalePrefix(order, hits, cutoff, n);
    SizeOfElements(stale[..n]);
    assert stale[..|stale|] == stale;
  }

  // ----- What the deques hold -----

  function Deque(hits: map<string, seq<real>>, k: string): seq<real> {
    if k in hits then hits[k] else []
  }

  /** The deque is the accepted history without its head, and that head is out of the window. */
  ghost predicate Remembers(q: seq<real>, times: seq<real>, cutoff: real) {
    && |q| <= |times| && q == times[|times| - |q|..]
    && forall i :: 0 <= i < |times| - |q| ==> times[i] < cutoff
  }

  /** The deque is the earlier one without its hits from before the cutoff. */
  ghost predicate SlidFrom(q: seq<real>, earlier: seq<real>, cutoff: real) {
    && |q| <= |earlier| && q == earlier[|earlier| - |q|..]
    && (forall i :: 0 <= i < |earlier| - |q| ==> earlier[i] < cutoff)
    && (q != [] ==> q[0] >= cutoff)
  }

  ghost predicate RemembersAll(hits: map<string, seq<real>>, log: Log, cutoff: real) {
    forall k :: Remembers(Deque(hits, k), Times(log, k), cutoff)
  }

  /** The keys with a hit let through in memory since the cutoff. */
  ghost function LiveKeys(log: Log, cutoff: real): set<string> {
    set d | d in log && !d.viaDb && d.accepted && d.at >= cutoff :: d.key
  }

  lemma {:induction false} LastTimeIsLive(log: Log, key: string, cutoff: real)
    requires Times(log, key) != [] && Times(log, key)[|Times(log, key)| - 1] >= cutoff
    ensures key in LiveKeys(log, cutoff)
  {
    var before, d := log[..|log| - 1], log[|log| - 1];
    assert d in log;
    if !(d.key == key && !d.viaDb && d.accepted) {
      LastTimeIsLive(before, key, cutoff);
      assert LiveKeys(before, cutoff) <= LiveKeys(log, cutoff);
    }
  }

  lemma SlidRemembers(q: seq<real>, slid: seq<real>, times: seq<real>, early: real, cutoff: real)
    requires Remembers(q, times, early) && early <= cutoff && SlidFrom(slid, q, cutoff)
    ensures Remembers(slid, times, cutoff)
  {
    var gone, dropped := |times| - |slid|, |times| - |q|;
    forall i | dropped <= i < gone
      ensures times[i] < cutoff
    {
      assert times[i] == q[i - dropped];
    }
    assert times[gone..] == times[dropped..][gone - dropped..];
  }

  /** The deque without its expired head counts the accepted hits of the window that ends now. */
  lemma SlideCounts(slid: seq<real>, times: seq<real>, cutoff: real, now: real)
    requires Sorted(times) && Remembers(slid, times, cutoff) && (slid != [] ==> slid[0] >= cutoff)
    requires forall i :: 0 <= i < |times| ==> times[i] <= now
    ensures InSpan(times, cutoff, now) == |slid|
  {
    var n := |times| - |slid|;
    assert times == times[..n] + times[n..];
    InSpanAppend(times[..n], times[n..], cutoff, now);
    InSpanNone(times[..n], cutoff, now);
    InSpanAll(times[n..], cutoff, now);
  }

  lemma RememberMore(q: seq<real>, times: seq<real>, cutoff: real, t: real)
    requires Remembers(q, times, cutoff)
    ensures Remembers(q + [t], times + [t], cutoff)
  {
    assert (times + [t])[|times| - |q|..] == times[|times| - |q|..] + [t];
  }

  lemma RememberLater(q: seq<real>, times: seq<real>, early: real, cutoff: real)
    requires Remembers(q, times, early) && early <= cutoff
    ensures Remembers(q, times, cutoff)
  {}

  lemma StaleForgotten(q: seq<real>, times: seq<real>, cutoff: real)
    requires Remembers(q, times, cutoff) && Sorted(times) && IsStale(q, cutoff)
    ensures Remembers([], times, cutoff)
  {
    if q != [] { assert times[|times| - 1] == q[|q| - 1]; }
  }

  /** After a hit was judged in memory the deques still hold all of the window. */
  lemma RememberHit(hits: map<string, seq<real>>, log: Log, early: real, cutoff: real, d: Decision, q: seq<real>)
    requires RemembersAll(hits, log, early) && early <= cutoff && !d.viaDb
    requires Remembers(q, Times(log, d.key), cutoff)
    ensures RemembersAll(hits[d.key := if d.accepted then q + [d.at] else q], log + [d], cutoff)
  {
    hide Remembers, Times;
    var after := hits[d.key := if d.accepted then q + [d.at] else q];
    forall k
      ensures Remembers(Deque(after, k), Times(log + [d], k), cutoff)
    {
      TimesPush(log, d, k);
      if k == d.key {
        RememberMore(q, Times(log, k), cutoff, d.at);
      } else {
        RememberLater(Deque(hits, k), Times(log, k), early, cutoff);
      }
    }
  }

  /** Removing stale keys loses nothing of the window. */
  lemma ForgetStale(limit: int, window: int, hits: map<string, seq<real>>, log: Log, cutoff: real, gone: set<string>)
    requires RemembersAll(hits, log, cutoff) && Admitted(limit, window, log)
    requires forall k :: k in gone ==> k in hits && IsStale(hits[k], cutoff)
    ensures RemembersAll(hits - gone, log, cutoff)
  {
    hide Remembers, Times, IsStale, Sorted, Admitted;
    forall k
      ensures Remembers(Deque(hits - gone, k), Times(log, k), cutoff)
    {
      assert Remembers(Deque(hits, k), Times(log, k), cutoff);
      if k in gone {
        TimesSorted(limit, window, log, k);
        StaleForgotten(hits[k], Times(log, k), cutoff);
      }
    }
  }

  lemma {:induction false} SizeOfElements(s: seq<string>)
    requires Distinct(s)
    ensures |Elements(s)| == |s|
  {
    if s != [] {
      var init, k := s[..|s| - 1], s[|s| - 1];
      SizeOfElements(init);
      assert Elements(s) == Elements(init) + {k};
    }
  }

  /** What is left after an eviction: no more than the maximum, or nothing but live keys. */
  lemma EvictionBound(order: seq<string>, hits: map<string, seq<real>>, log: Log, cutoff: real, maxKeys: int)
    requires Distinct(order) && (forall k :: k in order <==> k in hits) && |hits| > maxKeys
    requires RemembersAll(hits, log, cutoff)
    ensures var gone := Evicted(order, hits, cutoff, maxKeys);
            && (forall k :: k in gone ==> k in hits && IsStale(hits[k], cutoff))
            && |hits - gone| <= Max(maxKeys, |LiveKeys(log, cutoff)|)
  {
    StaleKeysAre(order, hits, cutoff);
    var stale := StaleKeys(order, hits, cutoff);
    var gone := Evicted(order, hits, cutoff, maxKeys);
    var left := hits - gone;
    assert left.Keys == hits.Keys - gone && |left| == |left.Keys| && |hits| == |hits.Keys|;
    if |stale| < |hits| - maxKeys {
      forall k | k in left
        ensures k in LiveKeys(log, cutoff)
      {
        assert Remembers(Deque(hits, k), Times(log, k), cutoff);
        LastTimeIsLive(log, k, cutoff);
      }
      SubsetSize(left.Keys, LiveKeys(log, cutoff));
    } else {
      SizeOfElements(stale[..|hits| - maxKeys]);
    }
  }

  lemma {:induction false} SubsetSize(a: set<string>, b: set<string>)
    requires a <= b
    ensures |a| <= |b|
  {
    assert b == a + (b - a);
  }

  // ----- What the table holds -----

  /** A row counts its bucket and was last touched in it; a bucket that was hit and has no row is over. */
  ghost predicate Counts(rows: map<(string, int), Row>, log: Log, window: int, clock: real, key: string, bucket: int)
    requires window != 0
  {
    if (key, bucket) in rows then
      var row := rows[(key, bucket)];
      row.hits == BucketHits(log, key, window, bucket) && row.updatedAt <= clock
        && Bucket(row.updatedAt, window) == bucket
    else BucketHits(log, key, window, bucket) == 0 || bucket < Bucket(clock, window)
  }

  predicate Expired(row: Row, now: real, window: int) {
    row.updatedAt < now - 10.0 * window as real
  }

  ghost predicate CountsAll(rows: map<(string, int), Row>, log: Log, window: int, clock: real)
    requires window != 0
  {
    forall k, b :: Counts(rows, log, window, clock, k, b)
  }

  function Upserted(rows: map<(string, int), Row>, key: string, bucket: int, now: real): map<(string, int), Row> {
    var at := (key, bucket);
    rows[at := Row(if at in rows then rows[at].hits + 1 else 1, now)]
  }

  function Cleaned(rows: map<(string, int), Row>, now: real, window: int): map<(string, int), Row> {
    map at | at in rows && !Expired(rows[at], now, window) :: rows[at]
  }

  /** The table after a counted hit: its own row has one hit more and is of now; a cleanup then
      leaves exactly the rows touched within the last ten windows. */
  lemma RowsAre(rows: map<(string, int), Row>, key: string, bucket: int, now: real, window: int)
    ensures var all := Upserted(rows, key, bucket, now);
            && (key, bucket) in all && all[(key, bucket)].updatedAt == now
            && all[(key, bucket)].hits == (if (key, bucket) in rows then rows[(key, bucket)].hits + 1 else 1)
            && all - {(key, bucket)} == rows - {(key, bucket)}
    ensures forall at ::
              var kept := Cleaned(rows, now, window);
              && (at in kept <==> at in rows && rows[at].updatedAt >= now - (10 * window) as real)
              && (at in kept ==> kept[at] == rows[at])
  {
  }

  /** An upsert counts the hit: the row it returns is the number of hits of the bucket. */
  lemma UpsertCounts(rows: map<(string, int), Row>, log: Log, window: int, clock: real, d: Decision)
    requires window > 0 && CountsAll(rows, log, window, clock) && clock <= d.at && d.viaDb
    ensures var b := Bucket(d.at, window);
            && Upserted(rows, d.key, b, d.at)[(d.key, b)].hits == BucketHits(log, d.key, window, b) + 1
            && CountsAll(Upserted(rows, d.key, b, d.at), log + [d], window, d.at)
  {
    var b := Bucket(d.at, window);
    BucketMonotone(clock, d.at, window);
    assert Counts(rows, log, window, clock, d.key, b);
    forall k, c
      ensures Counts(Upserted(rows, d.key, b, d.at), log + [d], window, d.at, k, c)
    {
      assert Counts(rows, log, window, clock, k, c);
      assert (log + [d])[..|log|] == log;
    }
  }

  /** The cleanup takes only buckets that are over. */
  lemma CleanupCounts(rows: map<(string, int), Row>, log: Log, window: int, now: real)
    requires window > 0 && CountsAll(rows, log, window, now)
    ensures CountsAll(Cleaned(rows, now, window), log, window, now)
  {
    forall k, c
      ensures Counts(Cleaned(rows, now, window), log, window, now, k, c)
    {
      assert Counts(rows, log, window, now, k, c);
      if (k, c) in rows && Expired(rows[(k, c)], now, window) {
        BucketMonotone(rows[(k, c)].updatedAt, now, window);
        if c == Bucket(now, window) {
          CleanupSparesCurrentExactlyWhen(rows[(k, c)], now, window);
        }
      }
    }
  }

  /** The cleanup spares the row of the current bucket whenever the window is positive, and
      for a negative window it deletes every row. */
  lemma CleanupSparesCurrentExactlyWhen(row: Row, now: real, window: int)
    requires window != 0 && row.updatedAt <= now && Bucket(row.updatedAt, window) == Bucket(now, window)
    ensures !Expired(row, now, window) <==> window > 0
  {
    if window > 0 && Expired(row, now, window) {
      BucketNext(row.updatedAt, window);
      BucketMonotone(row.updatedAt + window as real, now, window);
      assert false;
    }
  }

  ghost predicate UpTo(log: Log, t: real) {
    forall d :: d in log ==> d.at <= t
  }

  lemma Recall(hits: map<string, seq<real>>, log: Log, cutoff: real, k: string)
    requires RemembersAll(hits, log, cutoff)
    ensures Remembers(Deque(hits, k), Times(log, k), cutoff)
  {}

  lemma NonEmptyKnown(hits: map<string, seq<real>>, k: string, q: seq<real>, cutoff: real)
    requires SlidFrom(q, Deque(hits, k), cutoff)
    ensures q != [] ==> k in hits
  {}

  /** A hit judged by the length of its slid deque obeys the rule, and the deques still remember. */
  lemma MemoryHit(limit: int, window: int, after: map<string, seq<real>>, hits: map<string, seq<real>>, log: Log,
                  clock: real,
                  d: Decision, q: seq<real>)
    requires Admitted(limit, window, log) && UpTo(log, clock) && clock <= d.at && !d.viaDb
    requires RemembersAll(hits, log, clock - window as real)
    requires SlidFrom(q, Deque(hits, d.key), d.at - window as real) && after == hits[d.key := q]
    requires d.accepted <==> |q| < limit
    ensures Rule(limit, window, log, d) && Admitted(limit, window, log + [d]) && UpTo(log + [d], d.at)
    ensures RemembersAll(if d.accepted then after[d.key := q + [d.at]] else after, log + [d], d.at - window as real)
    ensures q != [] ==> d.key in hits
  {
    hide Remembers, RemembersAll, Sorted, Times, InSpan, Admitted, Deque;
    var early, cutoff := clock - window as real, d.at - window as real;
    NonEmptyKnown(hits, d.key, q, cutoff);
    Recall(hits, log, early, d.key);
    TimesSorted(limit, window, log, d.key);
    TimesUpTo(log, d.key, d.at);
    SlidRemembers(Deque(hits, d.key), q, Times(log, d.key), early, cutoff);
    SlideCounts(q, Times(log, d.key), cutoff, d.at);
    RememberHit(hits, log, early, cutoff, d, q);
    assert after[d.key := q + [d.at]] == hits[d.key := q + [d.at]];
    Admit(limit, window, log, d);
  }

  /** A hit judged by the count its row returned obeys the rule, and the rows still count. */
  lemma DbHit(limit: int, window: int, rows: map<(string, int), Row>, log: Log, clock: real, d: Decision, count: nat)
    requires Admitted(limit, window, log) && UpTo(log, clock) && clock <= d.at && d.viaDb && AllDb(log) && window != 0
    requires window > 0 ==> CountsAll(rows, log, window, clock)
    requires var b := Bucket(d.at, window); count == Upserted(rows, d.key, b, d.at)[(d.key, b)].hits
    requires d.accepted <==> count <= limit
    ensures Rule(limit, window, log, d) && Admitted(limit, window, log + [d]) && UpTo(log + [d], d.at)
            && AllDb(log + [d])
    ensures window > 0 ==>
              var all := Upserted(rows, d.key, Bucket(d.at, window), d.at);
              && CountsAll(all, log + [d], window, d.at)
              && CountsAll(Cleaned(all, d.at, window), log + [d], window, d.at)
  {
    hide CountsAll, Cleaned, BucketHits, Bucket, Admitted;
    if window > 0 {
      UpsertCounts(rows, log, window, clock, d);
      CleanupCounts(Upserted(rows, d.key, Bucket(d.at, window), d.at), log + [d], window, d.at);
    }
    assert Follows(log, d);
    Admit(limit, window, log, d);
  }

  lemma SameTimes(hits: map<string, seq<real>>, log: Log, early: real, cutoff: real, d: Decision)
    requires RemembersAll(hits, log, early) && early <= cutoff && d.viaDb
    ensures RemembersAll(hits, log + [d], cutoff)
  {
    hide Remembers, Times;
    forall k
      ensures Remembers(Deque(hits, k), Times(log + [d], k), cutoff)
    {
      TimesPush(log, d, k);
      RememberLater(Deque(hits, k), Times(log, k), early, cutoff);
    }
  }

  class Limiter {
    const limit: int
    const window: int
    const maxKeys: int
    const cleanupEvery: int
    const dbEnabled: bool
    var hits: map<string, seq<real>>
    var order: seq<string>
    var rows: map<(string, int), Row>
    var dbOps: nat
    var dbHealthy: bool
    ghost var log: Log
    ghost var clock: real

    ghost predicate Valid()
      reads this
    {
      && Admitted(limit, window, log)
      && UpTo(log, clock)
      && Dictionary()
      && RemembersAll(hits, log, clock - window as real)
      && (dbHealthy ==> dbEnabled && AllDb(log))
      && (dbHealthy && window > 0 ==> CountsAll(rows, log, window, clock))
    }

    constructor (limit: int, window: int, maxKeys: int, cleanupEvery: int, dbEnabled: bool, tableReady: bool)
      ensures Valid() && log == [] && hits == map[] && dbHealthy == (dbEnabled && tableReady)
      ensures this.limit == limit && this.window == window && this.maxKeys == maxKeys && this.dbEnabled == dbEnabled
    {
      this.limit, this.window, this.maxKeys := limit, window, maxKeys;
      this.cleanupEvery, this.dbEnabled := cleanupEvery, dbEnabled;
      hits, order, rows, dbOps, dbHealthy := map[], [], map[], 0, dbEnabled && tableReady;
      log, clock := [], 0.0;
    }

    /** The deque of the key, created if there is none, without the hits that left the window. */
    method Slide(key: string, cutoff: real) returns (q: seq<real>)
      requires Dictionary()
      modifies this`hits, this`order
      ensures SlidFrom(q, Deque(old(hits), key), cutoff)
      ensures Dictionary() && hits == old(hits)[key := q]
      ensures order == if key in old(hits) then old(order) else old(order) + [key]
    {
      if key !in hits {
        hits, order := hits[key := []], order + [key];
      }
      q := hits[key];
      ghost var i := 0;
      while q != [] && q[0] < cutoff
        invariant 0 <= i <= |Deque(old(hits), key)| && q == Deque(old(hits), key)[i..]
        invariant forall j :: 0 <= j < i ==> Deque(old(hits), key)[j] < cutoff
      {
        q, i := q[1..], i + 1;
      }
      hits := hits[key := q];
    }

    ghost predicate Dictionary()
      reads this`hits, this`order
    {
      Distinct(order) && forall k :: k in order <==> k in hits
    }

    method StaleOnes(cutoff: real) returns (stale: seq<string>)
      requires Dictionary()
      ensures stale == StaleKeys(order, hits, cutoff)
      ensures Distinct(stale) && forall k :: k in stale <==> k in hits && IsStale(hits[k], cutoff)
    {
      stale := [];
      for i := 0 to |order|
        invariant stale == StaleKeys(order[..i], hits, cutoff)
      {
        assert order[..i + 1][..i] == order[..i];
        if IsStale(hits[order[i]], cutoff) { stale := stale + [order[i]]; }
      }
      assert order[..|order|] == order;
      StaleKeysAre(order, hits, cutoff);
    }

    method Pop(k: string)
      requires Dictionary()
      modifies this`hits, this`order
      ensures Dictionary() && hits == old(hits) - {k} && order == Without(old(order), k)
    {
      forall x ensures x in Without(order, k) <==> x in order && x != k { WithoutHas(order, k, x); }
      WithoutDistinct(order, k);
      order := Without(order, k);
      hits := hits - {k};
    }

    /** Remove the first stale keys: as many as there are keys too many. */
    method Evict(cutoff: real)
      requires Dictionary() && |hits| > maxKeys
      modifies this`hits, this`order
      ensures Dictionary()
      ensures hits == old(hits) - Evicted(old(order), old(hits), cutoff, maxKeys)
    {
      hide Dictionary, StaleKeys, Elements;
      var stale := StaleOnes(cutoff);
      NoElements();
      var n := Max(1, |hits| - maxKeys);
      if |stale| < n { n := |stale|; }
      for i := 0 to n
        invariant Dictionary() && hits == old(hits) - Elements(stale[..i])
      {
        OneMore(old(hits), stale, i);
        Pop(stale[i]);
      }
      assert n == |stale| ==> stale[..n] == stale;
    }

    /** The hit's place in its bucket, or nothing when the table cannot be used; a failure rolls
        the transaction back and sends every later hit to memory. */
    method HitDbWindow(key: string, now: real, fails: bool) returns (count: Option<nat>)
      modifies this`rows, this`dbOps, this`dbHealthy
      ensures count.Some? <==> dbEnabled && old(dbHealthy) && !fails && window != 0
      ensures dbHealthy <==> old(dbHealthy) && (count.Some? || !dbEnabled)
      ensures count.None? ==> rows == old(rows)
      ensures count.Some? ==>
                var all := Upserted(old(rows), key, Bucket(now, window), now);
                && count.value == all[(key, Bucket(now, window))].hits
                && dbOps == old(dbOps) + 1
                && rows == if dbOps % Max(1, cleanupEvery) == 0 then Cleaned(all, now, window) else all
    {
      if !dbEnabled || !dbHealthy { return None; }
      if fails || window == 0 {
        dbHealthy := false;
        return None;
      }
      var at := (key, Bucket(now, window));
      if at in rows {
        rows := rows[at := Row(rows[at].hits + 1, now)];
      } else {
        rows := rows[at := Row(1, now)];
      }
      count := Some(rows[at].hits);
      dbOps := dbOps + 1;
      if dbOps % Max(1, cleanupEvery) == 0 {
        rows := map r | r in rows && !Expired(rows[r], now, window) :: rows[r];
      }
    }

    /** The bound on the number of keys, which forgets nothing of the window. */
    method BoundKeys(cutoff: real)
      requires Dictionary() && RemembersAll(hits, log, cutoff) && Admitted(limit, window, log)
      modifies this`hits, this`order
      ensures Dictionary() && RemembersAll(hits, log, cutoff)
      ensures |hits| <= Max(maxKeys, |LiveKeys(log, cutoff)|)
    {
      hide Admitted, Evicted, LiveKeys, RemembersAll, Distinct, IsStale;
      if |hits| > maxKeys {
        EvictionBound(order, hits, log, cutoff, maxKeys);
        ForgetStale(limit, window, hits, log, cutoff, Evicted(order, hits, cutoff, maxKeys));
        Evict(cutoff);
      }
    }

    /** The memory window: judge the hit, and after an accept bound the number of keys. */
    method HitMemory(key: string, now: real) returns (accepted: bool)
      requires Valid() && clock <= now && !dbHealthy
      modifies this`hits, this`order, this`log, this`clock
      ensures Valid() && clock == now
      ensures log == old(log) + [Decision(key, now, false, accepted)]
      ensures Rule(limit, window, old(log), Decision(key, now, false, accepted))
      ensures accepted ==> |hits| <= Max(maxKeys, |LiveKeys(log, now - window as real)|)
      ensures !accepted ==> hits.Keys == old(hits).Keys + if limit > 0 then {} else {key}
    {
      hide Admitted, Rule, Follows, AllDb, CountsAll, LiveKeys, RemembersAll, Distinct, UpTo, SlidFrom, Deque, Times;
      var cutoff := now - window as real;
      var q := Slide(key, cutoff);
      accepted := |q| < limit;
      ghost var d := Decision(key, now, false, accepted);
      MemoryHit(limit, window, hits, old(hits), log, clock, d, q);
      log, clock := log + [d], now;
      if !accepted { return; }
      hits := hits[key := q + [now]];
      assert hits == old(hits)[key := q + [now]];
      BoundKeys(cutoff);
    }

    /** dispatch, for a request that is limited at all. */
    method Dispatch(key: string, now: real, dbFails: bool) returns (accepted: bool, ghost viaDb: bool)
      requires Valid() && clock <= now
      modifies this
      ensures Valid() && clock == now
      ensures log == old(log) + [Decision(key, now, viaDb, accepted)]
      ensures Rule(limit, window, old(log), Decision(key, now, viaDb, accepted))
      ensures viaDb <==> old(dbHealthy) && !dbFails && window != 0
      ensures dbHealthy <==> viaDb
      ensures viaDb ==> hits == old(hits)
      ensures !viaDb ==> rows == old(rows)
      ensures !viaDb && accepted ==> |hits| <= Max(maxKeys, |LiveKeys(log, now - window as real)|)
      ensures !viaDb && !accepted ==> hits.Keys == old(hits).Keys + if limit > 0 then {} else {key}
    {
      hide Admitted, Rule, Follows, AllDb, CountsAll, LiveKeys, RemembersAll, Distinct, UpTo, Cleaned, Bucket;
      var count := HitDbWindow(key, now, dbFails);
      viaDb := count.Some?;
      if count.Some? {
        accepted := count.value <= limit;
        DbHit(limit, window, old(rows), log, clock, Decision(key, now, true, accepted), count.value);
        SameTimes(hits, log, clock - window as real, now - window as real, Decision(key, now, true, accepted));
        log, clock := log + [Decision(key, now, true, accepted)], now;
      } else {
        accepted := HitMemory(key, now);
      }
    }

    /** In every state a limiter can be in: what any span of one window has let through. */
    lemma EverySpanIsBounded(key: string, lo: real)
      requires Valid() && window > 0
      ensures InSpan(Times(log, key), lo, lo + window as real) <= Cap(limit)
      ensures Accepts(log, key, lo, lo + window as real) <= if dbHealthy then 2 * Cap(limit) else 3 * Cap(limit)
    {
      hide RemembersAll, CountsAll, Admitted, UpTo, Dictionary, Times, InSpan, Accepts, AllDb;
      SpanBound(limit, window, log, key, lo);
      SpanBoundAcrossFailover(limit, window, log, key, lo);
    }
  }
}
