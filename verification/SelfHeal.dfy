// The supervisor's restarts: a budget per service kept as a list that is filtered at every
// attempt, one check per tick of the loop, and the lock that backups and restores hold.
module SelfHeal {
  import opened Admission
  import RateLimiter

  datatype Restart = Restart(service: string, at: real, locked: bool)

  /** The list comprehension: the attempts not older than the window, in their order. */
  function Recent(attempts: seq<real>, now: real, window: int): seq<real> {
    if attempts == [] then []
    else
      var earlier, t := Recent(attempts[..|attempts| - 1], now, window), attempts[|attempts| - 1];
      if now - t <= window as real then earlier + [t] else earlier
  }

  function Attempts(lists: map<string, seq<real>>, service: string): seq<real> {
    if service in lists then lists[service] else []
  }

  /** The list of a service is what the last filter left of all its attempts, and the rest is
      out of the window for good. */
  ghost predicate Kept(list: seq<real>, times: seq<real>, clock: real, window: int) {
    forall lo, hi :: clock - window as real <= lo ==> InSpan(list, lo, hi) == InSpan(times, lo, hi)
  }

  ghost predicate KeptAll(lists: map<string, seq<real>>, log: Log, clock: real, window: int) {
    forall s :: Kept(Attempts(lists, s), Times(log, s), clock, window)
  }

  ghost predicate Upto(times: seq<real>, now: real) {
    forall i :: 0 <= i < |times| ==> times[i] <= now
  }

  /** Filtering loses nothing of a span inside the window, and keeps exactly what lies in the window. */
  lemma {:induction false} RecentCounts(list: seq<real>, now: real, window: int, lo: real, hi: real)
    requires now - window as real <= lo
    ensures InSpan(Recent(list, now, window), lo, hi) == InSpan(list, lo, hi)
  {
    if list != [] {
      var init, t := list[..|list| - 1], list[|list| - 1];
      RecentCounts(init, now, window, lo, hi);
      InSpanPush(Recent(init, now, window), t, lo, hi);
    }
  }

  lemma {:induction false} RecentIsWindow(list: seq<real>, now: real, window: int)
    requires Upto(list, now)
    ensures |Recent(list, now, window)| == InSpan(list, now - window as real, now)
    ensures Upto(Recent(list, now, window), now)
  {
    if list != [] {
      RecentIsWindow(list[..|list| - 1], now, window);
    }
  }

  function RestartsIn(restarts: seq<Restart>, service: string, lo: real, hi: real): nat {
    if restarts == [] then 0
    else
      var r := restarts[|restarts| - 1];
      RestartsIn(restarts[..|restarts| - 1], service, lo, hi)
      + if r.service == service && lo <= r.at <= hi then 1 else 0
  }

  /** Every restart spent one accepted question to the budget. */
  ghost predicate Paid(restarts: seq<Restart>, log: Log) {
    forall s, lo, hi :: RestartsIn(restarts, s, lo, hi) <= InSpan(Times(log, s), lo, hi)
  }

  ghost predicate UpToAll(lists: map<string, seq<real>>, now: real) {
    forall s :: Upto(Attempts(lists, s), now)
  }

  ghost predicate Memory(log: Log, now: real) {
    forall d :: d in log ==> d.at <= now && !d.viaDb
  }

  ghost predicate Refused(log: Log) {
    exists d :: d in log && !d.accepted
  }

  /** A question judged by the length of the filtered list obeys the limiter's rule. */
  lemma BudgetObeysRule(threshold: int, window: int, lists: map<string, seq<real>>, log: Log, clock: real, d: Decision)
    requires Admitted(threshold, window, log) && Memory(log, clock) && clock <= d.at && !d.viaDb
    requires KeptAll(lists, log, clock, window) && UpToAll(lists, clock)
    requires d.accepted <==> |Recent(Attempts(lists, d.key), d.at, window)| < threshold
    ensures Rule(threshold, window, log, d) && Admitted(threshold, window, log + [d]) && Memory(log + [d], d.at)
    ensures Refused(log + [d]) <==> Refused(log) || !d.accepted
  {
    hide InSpan, Times, Recent, Admitted;
    var list := Attempts(lists, d.key);
    assert Kept(list, Times(log, d.key), clock, window) && Upto(list, clock);
    assert forall e :: e in log + [d] <==> e in log || e == d;
    RecentIsWindow(list, d.at, window);
    assert InSpan(list, d.at - window as real, d.at) == InSpan(Times(log, d.key), d.at - window as real, d.at);
    Admit(threshold, window, log, d);
  }

  lemma KeepsOther(list: seq<real>, times: seq<real>, clock: real, now: real, window: int)
    requires Kept(list, times, clock, window) && Upto(list, clock) && clock <= now
    ensures Kept(list, times, now, window) && Upto(list, now)
  {
    hide InSpan;
  }

  lemma KeepsOwn(list: seq<real>, times: seq<real>, clock: real, now: real, window: int)
    requires Kept(list, times, clock, window) && Upto(list, clock) && clock <= now
    ensures var recent := Recent(list, now, window);
            && Kept(recent, times, now, window) && Upto(recent, now)
            && Kept(recent + [now], times + [now], now, window) && Upto(recent + [now], now)
  {
    var recent := Recent(list, now, window);
    RecentIsWindow(list, now, window);
    hide InSpan, Recent;
    forall lo, hi | now - window as real <= lo
      ensures InSpan(recent, lo, hi) == InSpan(times, lo, hi)
      ensures InSpan(recent + [now], lo, hi) == InSpan(times + [now], lo, hi)
    {
      RecentCounts(list, now, window, lo, hi);
      InSpanPush(recent, now, lo, hi);
      InSpanPush(times, now, lo, hi);
    }
  }

  /** The new list stands for the new history. */
  lemma KeepsBudget(window: int, lists: map<string, seq<real>>, log: Log, clock: real, d: Decision)
    requires KeptAll(lists, log, clock, window) && UpToAll(lists, clock) && clock <= d.at && !d.viaDb
    ensures var recent := Recent(Attempts(lists, d.key), d.at, window);
            var after := lists[d.key := if d.accepted then recent + [d.at] else recent];
            KeptAll(after, log + [d], d.at, window) && UpToAll(after, d.at)
  {
    hide Kept, Upto, Recent, Times;
    var recent := Recent(Attempts(lists, d.key), d.at, window);
    var after := lists[d.key := if d.accepted then recent + [d.at] else recent];
    forall s
      ensures Kept(Attempts(after, s), Times(log + [d], s), d.at, window) && Upto(Attempts(after, s), d.at)
    {
      assert Kept(Attempts(lists, s), Times(log, s), clock, window) && Upto(Attempts(lists, s), clock);
      TimesPush(log, d, s);
      if s == d.key {
        KeepsOwn(Attempts(lists, s), Times(log, s), clock, d.at, window);
      } else {
        KeepsOther(Attempts(lists, s), Times(log, s), clock, d.at, window);
      }
    }
  }

  lemma RestartsPush(restarts: seq<Restart>, r: Restart, s: string, lo: real, hi: real)
    ensures RestartsIn(restarts + [r], s, lo, hi)
            == RestartsIn(restarts, s, lo, hi) + if r.service == s && lo <= r.at <= hi then 1 else 0
  {
    assert (restarts + [r])[..|restarts|] == restarts;
  }

  lemma PaysForRestart(restarts: seq<Restart>, log: Log, d: Decision, r: Restart)
    requires Paid(restarts, log) && !d.viaDb && r.service == d.key && r.at == d.at
    ensures Paid(restarts, log + [d])
    ensures d.accepted ==> Paid(restarts + [r], log + [d])
  {
    hide RestartsIn, InSpan, Times;
    forall s, lo, hi
      ensures RestartsIn(restarts, s, lo, hi) <= InSpan(Times(log + [d], s), lo, hi)
      ensures d.accepted ==> RestartsIn(restarts + [r], s, lo, hi) <= InSpan(Times(log + [d], s), lo, hi)
    {
      TimesPush(log, d, s);
      InSpanPush(Times(log, s), d.at, lo, hi);
      RestartsPush(restarts, r, s, lo, hi);
    }
  }

  class Supervisor {
    const threshold: int
    const window: int
    var attempts: map<string, seq<real>>
    var needsSupport: bool
    var backupLocked: bool
    ghost var log: Log                 // every question to the budget
    ghost var restarts: seq<Restart>   // every restart tried
    ghost var clock: real

    ghost predicate Valid()
      reads this
    {
      && Admitted(threshold, window, log) && Memory(log, clock)
      && KeptAll(attempts, log, clock, window) && UpToAll(attempts, clock)
      && (needsSupport <==> Refused(log))
      && Paid(restarts, log) && (forall r :: r in restarts ==> !r.locked)
    }

    constructor (threshold: int, window: int)
      ensures Valid() && log == [] && restarts == [] && !needsSupport && !backupLocked
      ensures this.threshold == threshold && this.window == window
    {
      this.threshold, this.window := threshold, window;
      attempts, needsSupport, backupLocked := map[], false, false;
      log, restarts, clock := [], [], 0.0;
    }

    method StillInWindow(list: seq<real>, now: real) returns (recent: seq<real>)
      ensures recent == Recent(list, now, window)
    {
      recent := [];
      for i := 0 to |list|
        invariant recent == Recent(list[..i], now, window)
      {
        assert list[..i + 1][..i] == list[..i];
        if now - list[i] <= window as real { recent := recent + [list[i]]; }
      }
      assert list[..|list|] == list;
    }

    /** _within_self_heal_budget: the flag goes up at a refusal and never comes down. */
    method WithinBudget(service: string, now: real) returns (ok: bool)
      requires Valid() && clock <= now
      modifies this`attempts, this`needsSupport, this`log, this`clock
      ensures Admitted(threshold, window, log) && Memory(log, now) && clock == now
      ensures KeptAll(attempts, log, now, window) && UpToAll(attempts, now)
      ensures log == old(log) + [Decision(service, now, false, ok)]
      ensures Rule(threshold, window, old(log), Decision(service, now, false, ok))
      ensures needsSupport == (old(needsSupport) || !ok) && (needsSupport <==> Refused(log))
    {
      hide Admitted, Rule, KeptAll, UpToAll, Memory, Recent, Paid, Refused;
      var list := Attempts(attempts, service);
      var recent := StillInWindow(list, now);
      attempts := attempts[service := recent];
      ok := |recent| < threshold;
      ghost var d := Decision(service, now, false, ok);
      BudgetObeysRule(threshold, window, old(attempts), log, clock, d);
      KeepsBudget(window, old(attempts), log, clock, d);
      log, clock := log + [d], now;
      if !ok {
        needsSupport := true;
        return;
      }
      attempts := attempts[service := recent + [now]];
      assert attempts == old(attempts)[service := recent + [now]];
    }

    /** One round of the loop: nothing while the lock is held or docker is away; the api is
        looked at only when the database is healthy. */
    method Tick(now: real, dockerUp: bool, dbHealthy: bool, apiHealthy: bool, present: string -> bool)
      requires Valid() && clock <= now
      modifies this
      ensures Valid() && backupLocked == old(backupLocked)
      ensures var target := if dbHealthy then "api" else "db";
              if old(backupLocked) || !dockerUp || (dbHealthy && apiHealthy) then
                log == old(log) && restarts == old(restarts) && needsSupport == old(needsSupport)
                  && attempts == old(attempts)
              else
                exists ok ::
                  && Rule(threshold, window, old(log), Decision(target, now, false, ok))
                  && log == old(log) + [Decision(target, now, false, ok)]
                  && restarts == old(restarts) + (if ok && present(target) then [Restart(target, now, false)] else [])
                  && needsSupport == (old(needsSupport) || !ok)
    {
      if backupLocked || !dockerUp { return; }
      if !dbHealthy {
        Heal("db", now, present("db"));
        return;
      }
      if !apiHealthy {
        Heal("api", now, present("api"));
      }
    }

    method Heal(service: string, now: real, isPresent: bool)
      requires Valid() && clock <= now && !backupLocked
      modifies this
      ensures Valid() && !backupLocked && log != [] && clock == now
      ensures var ok := log[|log| - 1].accepted;
              && Rule(threshold, window, old(log), Decision(service, now, false, ok))
              && log == old(log) + [Decision(service, now, false, ok)]
              && restarts == old(restarts) + (if ok && isPresent then [Restart(service, now, false)] else [])
              && needsSupport == (old(needsSupport) || !ok)
    {
      hide Admitted, Rule, KeptAll, UpToAll, Paid, Refused, Memory;
      var ok := WithinBudget(service, now);
      ghost var d := Decision(service, now, false, ok);
      PaysForRestart(restarts, old(log), d, Restart(service, now, backupLocked));
      if ok && isPresent {
        restarts := restarts + [Restart(service, now, backupLocked)];
      }
    }

    /** A backup or a restore takes the lock once it is free, and gives it back. */
    method Lock()
      requires Valid() && !backupLocked
      modifies this`backupLocked
      ensures Valid() && backupLocked
    {
      backupLocked := true;
    }

    method Unlock()
      requires Valid() && backupLocked
      modifies this`backupLocked
      ensures Valid() && !backupLocked
    {
      backupLocked := false;
    }

    /** However the rounds fell: at most threshold restarts of a service in any span of one
        window, none of them under the lock. */
    lemma RestartsAreBounded(service: string, lo: real)
      requires Valid()
      ensures RestartsIn(restarts, service, lo, lo + window as real) <= Cap(threshold)
      ensures forall r :: r in restarts ==> !r.locked
    {
      SpanBound(threshold, window, log, service, lo);
    }

    /** The filtered list and the limiter's deques decide alike: fed the same hits, with the same
        bounds, they have the same history of decisions. */
    lemma DecidesLikeLimiter(other: RateLimiter.Limiter)
      requires Valid() && other.Valid() && threshold == other.limit && window == other.window
      requires |log| == |other.log|
      requires forall i :: 0 <= i < |log| ==>
                 log[i].key == other.log[i].key && log[i].at == other.log[i].at && !other.log[i].viaDb
      ensures log == other.log
    {
      forall i | 0 <= i < |log|
        ensures !log[i].viaDb
      {
        assert log[i] in log;
      }
      SameHitsSameDecisions(threshold, window, log, other.log);
    }
  }
}
