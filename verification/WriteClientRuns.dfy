// The client object and the client of the write path are one: what a request or a replay of
// the object does on the network and to the store is a run of the write path, whenever the
// network answers both the same.
module WriteClientRuns {
  import opened Prelude
  import opened IdempotencyServer
  import opened WritePath
  import opened WritePathTrace
  import opened WritePathOutbox
  import opened WritePathRuns
  import opened ExactlyOnce
  import C = WriteClient

  /** The write that goes to the server for a method and path. */
  type Encoding = (C.Verb, string) -> Write

  function OutboxOf(store: map<nat, C.Item>, encode: Encoding): map<nat, Item> {
    map i | i in store :: Item(store[i].key, encode(store[i].verb, store[i].path), store[i].retries)
  }

  /** An HTTP status as the write path's answer code. */
  predicate Means(code: Code, status: nat) {
    (code == Success <==> 200 <= status < 300) && (code == Unauthorized <==> status == 401)
  }

  /** What the network, the server and other clients' messages do meanwhile. */
  predicate Elsewhere(e: Event) {
    e.ServerDoes? || e.Deliver? || e.Unauthorize? || e.Lose?
  }

  datatype Meanwhile = Meanwhile(events: seq<Event>, answer: nat)

  ghost predicate AllElsewhere(events: seq<Event>) {
    forall e :: e in events ==> Elsewhere(e)
  }

  lemma {:induction false} ElsewhereFrame(retention: int, s: System, events: seq<Event>)
    requires AllElsewhere(events)
    ensures var t := Run(retention, s, events); t == s.(server := t.server, inbox := t.inbox)
  {
    if events != [] {
      var n := |events| - 1;
      ElsewhereFrame(retention, s, events[..n]);
      assert Elsewhere(events[n]);
      ElsewhereStep(retention, Run(retention, s, events[..n]), events[n]);
    }
  }

  lemma ElsewhereStep(retention: int, s: System, e: Event)
    requires Elsewhere(e)
    ensures var t := Happens(retention, s, e); t == s.(server := t.server, inbox := t.inbox)
  {
    hide Apply, Enabled, UsedId;
  }

  /** Call c is waiting, and what the fetch got is what its message was answered. */
  predicate Hears(s: System, c: nat, f: C.Fetch, answer: nat) {
    && IsWaiting(s, c)
    && (f.reply.Response? ==>
          && answer < |s.server.answers| && s.server.answers[answer].id == s.calls[c].phase.msg
          && Means(s.server.answers[answer].code, f.reply.status))
  }

  lemma {:induction false} RunKeepsInv(retention: int, s: System, events: seq<Event>)
    requires SystemInv(retention, s)
    ensures SystemInv(retention, Run(retention, s, events))
  {
    hide SystemInv, Happens;
    if events != [] {
      var n := |events| - 1;
      RunKeepsInv(retention, s, events[..n]);
      HappensSystem(retention, Run(retention, s, events[..n]), events[n]);
    }
  }

  /** An answer to a call's message is an answer for its key. */
  lemma AnswersOwnCall(retention: int, s: System, c: nat, answer: nat)
    requires SystemInv(retention, s) && IsWaiting(s, c)
    requires answer < |s.server.answers| && s.server.answers[answer].id == s.calls[c].phase.msg
    ensures s.server.answers[answer].req.key == s.calls[c].key
  {
    hide ClaimInv, RecordInv, KeysOk, Kept, InboxOk, TxsSent, EffectsSent, NoEffectOf401;
    assert s.server.answers[answer] in s.server.answers;
  }

  // ----- The last fetch of a request -----

  function ConcludeEvents(c: nat, f: C.Fetch, answer: nat, out: C.Outcome): seq<Event> {
    if f.reply == C.NetworkError then [NetworkFails(c)]
    else if out == C.Threw(C.RefreshFailed) then [Receive(c, answer, true)] + [RefreshFails(c)]
    else [Receive(c, answer, false)]
  }

  /** How a call ends: its outcome, what it queues, and whether success was seen. */
  ghost predicate Concluded(s: System, t: System, c: nat, out: C.Outcome)
    requires c in s.calls
  {
    var call := s.calls[c];
    && t.server == s.server && t.tenant == s.tenant && t.next >= s.next
    && t.calls == (if call.origin.Direct? then s.calls - {c}
                   else s.calls[c := call.(phase := if out == C.Returned then Deleting else PuttingBack)])
    && (if out == C.Threw(C.Unreachable(true)) then t.outbox == s.outbox[s.next := Item(call.key, call.write, 0)]
        else t.outbox == s.outbox)
    && (if out == C.Returned then exists k: ClaimKey :: k.key == call.key && t.seen == s.seen + {k}
        else t.seen == s.seen)
  }

  lemma NetworkFailed(retention: int, s: System, c: nat)
    requires IsWaiting(s, c)
    ensures Concluded(s, Happens(retention, s, NetworkFails(c)), c, C.Threw(C.Unreachable(true)))
  {
    hide Do, Possible;
    FailureDoes(retention, s, c);
  }

  lemma FailureDoes(retention: int, s: System, c: nat)
    requires IsWaiting(s, c)
    ensures Happens(retention, s, NetworkFails(c)) == CallFails(Enqueue(s, s.calls[c].key, s.calls[c].write), c)
  {
    hide Keys, Enabled, Apply, UsedId;
  }

  lemma HearsAnswer(retention: int, s: System, c: nat, answer: nat, out: C.Outcome)
    requires IsWaiting(s, c) && answer < |s.server.answers| && s.server.answers[answer].id == s.calls[c].phase.msg
    requires out == C.Returned <==> s.server.answers[answer].code == Success
    requires !(out.Threw? && out.failure.Unreachable?) && s.server.answers[answer].req.key == s.calls[c].key
    ensures Concluded(s, Happens(retention, s, Receive(c, answer, false)), c, out)
  {
    hide Happens, Concluded, CallFails;
    ReceiveHappens(retention, s, c, answer, false);
    if out == C.Returned {
      SuccessConcluded(s, c, s.server.answers[answer]);
    } else {
      FailsConcluded(s, c, out);
    }
  }

  lemma SuccessConcluded(s: System, c: nat, answer: Answer)
    requires IsWaiting(s, c) && answer.code == Success && answer.req.key == s.calls[c].key
    ensures Concluded(s, Received(s, c, answer, false), c, C.Returned)
  {
    assert ClaimOf(answer.req).key == s.calls[c].key;
  }

  lemma NotRefreshed(retention: int, s: System, c: nat, answer: nat)
    requires IsWaiting(s, c) && answer < |s.server.answers| && s.server.answers[answer].id == s.calls[c].phase.msg
    requires s.server.answers[answer].code == Unauthorized
    ensures Concluded(s, Happens(retention, Happens(retention, s, Receive(c, answer, true)), RefreshFails(c)), c,
                      C.Threw(C.RefreshFailed))
  {
    hide Happens, Concluded, Received, CallFails;
    ReceiveHappens(retention, s, c, answer, true);
    var heard := Received(s, c, s.server.answers[answer], true);
    FailsConcluded(s, c, C.Threw(C.RefreshFailed));
    if s.calls[c].retried {
      RetriedFails(s, c, s.server.answers[answer]);
      NoRefresh(retention, heard, c);
    } else {
      AwaitsRefresh(s, c, s.server.answers[answer]);
      RefreshFailsDoes(retention, heard, c);
    }
  }

  lemma RetriedFails(s: System, c: nat, answer: Answer)
    requires IsWaiting(s, c) && answer.code == Unauthorized && s.calls[c].retried
    ensures Received(s, c, answer, true) == CallFails(s, c) && !IsRefreshing(CallFails(s, c), c)
  {
  }

  lemma AwaitsRefresh(s: System, c: nat, answer: Answer)
    requires IsWaiting(s, c) && answer.code == Unauthorized && !s.calls[c].retried
    ensures var heard := Received(s, c, answer, true);
            IsRefreshing(heard, c) && CallFails(heard, c) == CallFails(s, c)
  {
    var heard := Received(s, c, answer, true);
    assert heard.calls - {c} == s.calls - {c};
  }

  lemma FailsConcluded(s: System, c: nat, out: C.Outcome)
    requires c in s.calls && out.Threw? && !out.failure.Unreachable?
    ensures Concluded(s, CallFails(s, c), c, out)
  {
  }

  lemma RefreshFailsDoes(retention: int, s: System, c: nat)
    requires IsRefreshing(s, c)
    ensures Happens(retention, s, RefreshFails(c)) == CallFails(s, c)
  {
    hide CallFails, Enabled, Apply, Keys;
  }

  lemma NoRefresh(retention: int, s: System, c: nat)
    requires !IsRefreshing(s, c)
    ensures Happens(retention, s, RefreshFails(c)) == s
  {
    hide Do, Enabled;
  }

  lemma Concludes(retention: int, s: System, c: nat, f: C.Fetch, answer: nat, out: C.Outcome)
    requires Hears(s, c, f, answer) && C.Concludes(f, out)
    requires f.reply == C.NetworkError ==> C.Queues(f)
    requires SystemInv(retention, s)
    ensures Concluded(s, Run(retention, s, ConcludeEvents(c, f, answer, out)), c, out)
  {
    hide Run, Happens, Concluded, Enabled, Apply, SystemInv;
    if f.reply.Response? { AnswersOwnCall(retention, s, c, answer); }
    if f.reply == C.NetworkError {
      RunOne(retention, s, NetworkFails(c));
      NetworkFailed(retention, s, c);
    } else if out == C.Threw(C.RefreshFailed) {
      RunOne(retention, s, Receive(c, answer, true));
      RunPush(retention, s, [Receive(c, answer, true)], RefreshFails(c));
      NotRefreshed(retention, s, c, answer);
    } else {
      RunOne(retention, s, Receive(c, answer, false));
      HearsAnswer(retention, s, c, answer, out);
    }
  }

  // ----- A request of the user -----

  /** The second attempt of a call whose first was answered 401 and whose token was renewed. */
  lemma Retries(retention: int, s: System, c: nat, f: C.Fetch, answer: nat, key: string)
    requires SystemInv(retention, s) && Hears(s, c, f, answer) && f.reply == C.Response(401) && !s.calls[c].retried
    requires key !in s.owner
    ensures var t := Run(retention, s, [Receive(c, answer, true)] + [RefreshOk(c, key)]);
            var call := s.calls[c];
            && t.server == s.server && t.outbox == s.outbox && t.seen == s.seen && t.next == s.next + 1
               && t.tenant == s.tenant
            && t.calls == s.calls[c := call.(retried := true, phase := Waiting(s.next),
                                             key := if call.origin.Direct? then key else call.key)]
            && t.actor == s.actor
               && t.inbox == s.inbox[s.next := Request(s.tenant, s.actor, t.calls[c].key, call.write)]
  {
    RunOne(retention, s, Receive(c, answer, true));
    RunPush(retention, s, [Receive(c, answer, true)], RefreshOk(c, key));
    hide Run, SystemInv, Happens;
    ReceiveHappens(retention, s, c, answer, true);
    Renewed(retention, Received(s, c, s.server.answers[answer], true), c, key);
  }

  lemma Renewed(retention: int, s: System, c: nat, key: string)
    requires IsRefreshing(s, c) && key !in s.owner
    ensures var t, call := Happens(retention, s, RefreshOk(c, key)), s.calls[c];
            && t.server == s.server && t.outbox == s.outbox && t.seen == s.seen && t.next == s.next + 1
               && t.tenant == s.tenant
            && t.calls == s.calls[c := call.(retried := true, phase := Waiting(s.next),
                                             key := if call.origin.Direct? then key else call.key)]
            && t.actor == s.actor
               && t.inbox == s.inbox[s.next := Request(s.tenant, s.actor, t.calls[c].key, call.write)]
  {
    hide Keys, Enabled, Apply;
  }

  /** The events of a request that has been sent as call c: what happens elsewhere, the answer
      to each fetch but the last with a renewed token, and the end. */
  function CallEvents(c: nat, done: seq<C.Fetch>, first: Meanwhile, second: Meanwhile, key: string,
                      out: C.Outcome): seq<Event>
    requires 1 <= |done| <= 2
  {
    if |done| == 1 then first.events + ConcludeEvents(c, done[0], first.answer, out)
    else
      FirstAttempt(c, first, key) + second.events + ConcludeEvents(c, done[1], second.answer, out)
  }

  function FirstAttempt(c: nat, first: Meanwhile, key: string): seq<Event> {
    first.events + ([Receive(c, first.answer, true)] + [RefreshOk(c, key)])
  }

  /** The network answers call c as it answered these fetches. */
  ghost predicate Agrees(retention: int, s: System, c: nat, done: seq<C.Fetch>, first: Meanwhile, second: Meanwhile,
                         key: string)
    requires 1 <= |done| <= 2
  {
    && AllElsewhere(first.events) && AllElsewhere(second.events)
    && Hears(Run(retention, s, first.events), c, done[0], first.answer)
    && (|done| == 2 ==> Hears(Run(retention, s, FirstAttempt(c, first, key) + second.events), c, done[1],
                              second.answer))
  }

  predicate Copied(before: map<nat, Item>, after: map<nat, Item>, id: nat, key: string, write: Write) {
    after == before[id := Item(key, write, 0)]
  }

  /** What a whole request leaves: the call over or its replay about to be settled, a queued
      copy under its last key after a network failure, and the key seen after a success. */
  ghost predicate Left(s: System, t: System, c: nat, key: string, out: C.Outcome)
    requires c in s.calls
  {
    var call := s.calls[c];
    && t.tenant == s.tenant
    && (if call.origin.Direct? then t.calls == s.calls - {c}
        else c in t.calls && t.calls - {c} == s.calls - {c}
             && t.calls[c].origin == call.origin
             && t.calls[c].phase == if out == C.Returned then Deleting else PuttingBack)
    && (if out == C.Threw(C.Unreachable(true))
        then exists n :: n >= s.next && Copied(s.outbox, t.outbox, n, key, call.write)
        else t.outbox == s.outbox)
    && (if out == C.Returned then exists k: ClaimKey :: k.key == key && t.seen == s.seen + {k}
        else t.seen == s.seen)
  }

  /** Up to its last fetch a call has changed nothing but itself. */
  ghost predicate Underway(s: System, mid: System, c: nat) {
    && c in s.calls && c in mid.calls && mid.next >= s.next
    && mid.tenant == s.tenant && mid.outbox == s.outbox && mid.seen == s.seen
    && mid.calls - {c} == s.calls - {c}
    && mid.calls[c].origin == s.calls[c].origin && mid.calls[c].write == s.calls[c].write
  }

  lemma ConcludedLeft(s: System, mid: System, t: System, c: nat, out: C.Outcome)
    requires Underway(s, mid, c) && Concluded(mid, t, c, out)
    ensures Left(s, t, c, mid.calls[c].key, out)
  {
    if out == C.Threw(C.Unreachable(true)) {
      assert Copied(s.outbox, t.outbox, mid.next, mid.calls[c].key, s.calls[c].write);
    }
    if mid.calls[c].origin.Replay? {
      assert t.calls - {c} == mid.calls - {c};
    }
  }

  /** From where a call is underway, the last fetch and the end. */
  lemma LastFetch(retention: int, s: System, mid: System, c: nat, f: C.Fetch, elsewhere: Meanwhile, out: C.Outcome)
    requires SystemInv(retention, mid) && Underway(s, mid, c) && AllElsewhere(elsewhere.events)
    requires Hears(Run(retention, mid, elsewhere.events), c, f, elsewhere.answer)
    requires C.Concludes(f, out) && (f.reply == C.NetworkError ==> C.Queues(f))
    ensures Left(s, Run(retention, mid, elsewhere.events + ConcludeEvents(c, f, elsewhere.answer, out)), c,
                 mid.calls[c].key, out)
  {
    hide Run, SystemInv, ConcludeEvents, Concluded, Left;
    var heard := Run(retention, mid, elsewhere.events);
    RunConcat(retention, mid, elsewhere.events, ConcludeEvents(c, f, elsewhere.answer, out));
    RunKeepsInv(retention, mid, elsewhere.events);
    ElsewhereFrame(retention, mid, elsewhere.events);
    Concludes(retention, heard, c, f, elsewhere.answer, out);
    ConcludedLeft(s, heard, Run(retention, heard, ConcludeEvents(c, f, elsewhere.answer, out)), c, out);
  }

  /** A call that the network answers as it answered these fetches of a write ends as the
      request that made them. */
  lemma CallRuns(retention: int, s: System, c: nat, done: seq<C.Fetch>, first: Meanwhile, second: Meanwhile,
                 key: string, out: C.Outcome)
    requires SystemInv(retention, s) && IsWaiting(s, c) && !s.calls[c].retried && key !in s.owner
    requires 1 <= |done| <= 2 && (|done| == 2 ==> done[0].reply == C.Response(401))
    requires Agrees(retention, s, c, done, first, second, key)
    requires C.Concludes(C.Last(done), out) && (C.Last(done).reply == C.NetworkError ==> C.Queues(C.Last(done)))
    ensures Left(s, Run(retention, s, CallEvents(c, done, first, second, key, out)), c,
                 if |done| == 2 && s.calls[c].origin.Direct? then key else s.calls[c].key, out)
  {
    hide Run, SystemInv, ConcludeEvents, Left;
    if |done| == 1 {
      LastFetch(retention, s, s, c, done[0], first, out);
    } else {
      FirstFetch(retention, s, c, done[0], first, key);
      var mid := Run(retention, s, FirstAttempt(c, first, key));
      RunConcat(retention, s, FirstAttempt(c, first, key), second.events);
      LastFetch(retention, s, mid, c, done[1], second, out);
      var end := ConcludeEvents(c, done[1], second.answer, out);
      RunConcat(retention, s, FirstAttempt(c, first, key), second.events + end);
      assert FirstAttempt(c, first, key) + second.events + end == FirstAttempt(c, first, key) + (second.events + end);
    }
  }

  lemma FirstFetch(retention: int, s: System, c: nat, f: C.Fetch, first: Meanwhile, key: string)
    requires SystemInv(retention, s) && IsWaiting(s, c) && !s.calls[c].retried && key !in s.owner
    requires AllElsewhere(first.events) && f.reply == C.Response(401)
    requires Hears(Run(retention, s, first.events), c, f, first.answer)
    ensures var mid := Run(retention, s, FirstAttempt(c, first, key));
            && SystemInv(retention, mid) && Underway(s, mid, c)
            && mid.calls[c].key == if s.calls[c].origin.Direct? then key else s.calls[c].key
  {
    hide Run, SystemInv;
    var heard := Run(retention, s, first.events);
    RunConcat(retention, s, first.events, [Receive(c, first.answer, true)] + [RefreshOk(c, key)]);
    RunKeepsInv(retention, s, first.events);
    RunKeepsInv(retention, s, FirstAttempt(c, first, key));
    ElsewhereFrame(retention, s, first.events);
    Retries(retention, heard, c, f, first.answer, key);
  }

  // ----- Requests and replays -----

  /** A user's write, requested of the client with a key it mints, is a run of the write path:
      the same keys are sent, the same item is queued, and the call is over. */
  lemma RequestIsRun(retention: int, s: System, verb: C.Verb, path: string, o: C.Options, keys: nat -> string,
                     before: nat, after: nat, hadToken: bool, done: seq<C.Fetch>, out: C.Outcome, write: Write,
                     first: Meanwhile, second: Meanwhile)
    requires SystemInv(retention, s) && C.IsWrite(verb) && C.Normalized(path) !in C.UNQUEUED
    requires o.withKey && o.key == None && !o.retryAttempted
    requires C.Requested(verb, path, o, keys, before, after, hadToken, done, out)
    requires keys(before) != "" && keys(before) !in s.owner
    requires keys(before + 1) != "" && keys(before + 1) !in s.owner && keys(before + 1) != keys(before)
    requires |done| <= 2 && Agrees(retention, Submitted(s, keys(before), write), s.next, done, first, second,
                                   keys(before + 1))
    ensures 1 <= |done| <= 2
    ensures var events := [Submit(keys(before), write)]
            + CallEvents(s.next, done, first, second, keys(before + 1), out);
            var t := Run(retention, s, events);
            && t.calls == s.calls && C.Last(done).key.Some?
            && (if out == C.Threw(C.Unreachable(true))
                then exists n :: n >= s.next && Copied(s.outbox, t.outbox, n, C.Last(done).key.value, write)
                else t.outbox == s.outbox)
            && (if out == C.Returned
                then exists k: ClaimKey :: k.key == C.Last(done).key.value && t.seen == s.seen + {k}
                else t.seen == s.seen)
  {
    hide Run, SystemInv, ConcludeEvents, CallEvents, Agrees;
    var key, next := keys(before), keys(before + 1);
    RequestShape(verb, path, o, keys, before, after, hadToken, done, out);
    SubmitRun(retention, s, key, write);
    var submitted := Submitted(s, key, write);
    RunOne(retention, s, Submit(key, write));
    RunKeepsInv(retention, s, [Submit(key, write)]);
    RunConcat(retention, s, [Submit(key, write)], CallEvents(s.next, done, first, second, next, out));
    CallRuns(retention, submitted, s.next, done, first, second, next, out);
    NewCall(retention, s);
  }

  function Submitted(s: System, key: string, write: Write): System {
    Send(s.(next := s.next + 1, owner := s.owner[key := Owner(s.next, write)]), s.next,
         Call(s.next, Direct, key, write, false, PuttingBack), key)
  }

  lemma SubmitRun(retention: int, s: System, key: string, write: Write)
    requires key !in s.owner
    ensures Happens(retention, s, Submit(key, write)) == Submitted(s, key, write)
  {
    hide Enabled;
  }

  lemma NewCall(retention: int, s: System)
    requires SystemInv(retention, s)
    ensures s.next !in s.calls
  {
    hide ClaimInv, RecordInv, Traced, KeysOk, WaitsOk, Kept;
  }

  /** What the network saw of a write: one fetch, or a 401 and another. */
  lemma RequestShape(verb: C.Verb, path: string, o: C.Options, keys: nat -> string, before: nat, after: nat,
                     hadToken: bool, done: seq<C.Fetch>, out: C.Outcome)
    requires C.IsWrite(verb) && C.Normalized(path) !in C.UNQUEUED
    requires C.Requested(verb, path, o, keys, before, after, hadToken, done, out)
    requires keys(before) != "" && keys(before + 1) != ""
    ensures 1 <= |done| <= 2 && C.Concludes(C.Last(done), out)
    ensures |done| == 2 ==> done[0].reply == C.Response(401)
    ensures (o.withKey || C.Present(o.key)) && C.Last(done).reply == C.NetworkError ==> C.Queues(C.Last(done))
    ensures forall i :: 0 <= i < |done| ==>
              done[i].key == if o.withKey && !C.Present(o.key) then Some(keys(before + i)) else o.key
  {
    C.OnlyLastFetchSettles(verb, path, o, done, 0);
    assert C.Last(done) in done;
    if |done| == 2 {
      assert C.Earlier(done) == [done[0]];
      assert done[0] in C.Earlier(done) && done[0] in done;
    }
  }

  function Replayed(s: System, id: nat): System
    requires id in s.outbox
  {
    Send(s.(next := s.next + 1), s.next, ReplayCall(s, id), s.outbox[id].key)
  }

  lemma ReplayRun(retention: int, s: System, id: nat)
    requires id in s.outbox
    ensures Happens(retention, s, StartReplay(id)) == Replayed(s, id)
  {
    hide Enabled;
  }

  /** The outbox after a replay that ends so, an item copied under id n. */
  ghost predicate ReplayLeaves(before: map<nat, Item>, after: map<nat, Item>, id: nat, n: nat, out: C.Outcome)
    requires id in before
  {
    var item := before[id];
    if out == C.Returned then after == before - {id}
    else if out == C.Threw(C.Unreachable(true)) then
      n != id && after == before[n := Item(item.key, item.write, 0)][id := PutBack(item)]
    else after == before[id := PutBack(item)]
  }

  lemma SettlesCall(s: System, submitted: System, t: System, id: nat, out: C.Outcome)
    requires id in s.outbox && id < s.next && s.next !in s.calls && submitted == Replayed(s, id)
    requires Left(submitted, t, s.next, s.outbox[id].key, out)
    ensures var end := Settled(t, s.next);
            && end.calls == s.calls && (t.calls[s.next].phase.PuttingBack? || t.calls[s.next].phase.Deleting?)
            && exists n :: n >= s.next && ReplayLeaves(s.outbox, end.outbox, id, n, out)
  {
    var c, end := s.next, Settled(t, s.next);
    assert submitted.calls - {c} == s.calls;
    if out == C.Threw(C.Unreachable(true)) {
      var n :| n >= submitted.next && Copied(s.outbox, t.outbox, n, s.outbox[id].key, s.outbox[id].write);
      assert ReplayLeaves(s.outbox, end.outbox, id, n, out);
    } else {
      assert ReplayLeaves(s.outbox, end.outbox, id, c, out);
    }
  }

  /** What retry leaves in the store is what the write path leaves in the outbox, up to the id
      of the copy. */
  lemma SameOutbox(before: map<nat, C.Item>, after: map<nat, C.Item>, id: nat, unused: nat, nextId: nat, clock: nat,
                   out: C.Outcome, encode: Encoding)
    requires id in before && unused !in before && C.Normalized(before[id].path) == before[id].path
    requires if out == C.Returned then after == before - {id}
             else C.StaysQueued(before, id, unused, after, nextId, clock, out.failure)
    ensures ReplayLeaves(OutboxOf(before, encode), OutboxOf(after, encode), id, unused, out)
  {
    var was: map<nat, Item>, now: map<nat, Item> := OutboxOf(before, encode), OutboxOf(after, encode);
    if out == C.Returned {
      assert now == was - {id};
    } else if out == C.Threw(C.Unreachable(true)) {
      assert now == was[unused := Item(was[id].key, was[id].write, 0)][id := PutBack(was[id])];
    } else {
      assert now == was[id := PutBack(was[id])];
    }
  }

  /** retry is a run of the write path: a replay is started, the network answers it as it
      answered the client, its item is settled, and after a success its key has been seen. */
  lemma RetryIsRun(retention: int, s: System, a: C.Attempt, keys: nat -> string, hasTenant: bool, encode: Encoding,
                   first: Meanwhile, second: Meanwhile, spare: string)
    requires SystemInv(retention, s) && s.outbox == OutboxOf(a.before, encode) && spare !in s.owner
    requires C.Retried(keys, hasTenant, a) && 1 <= |a.done| <= 2 && a.before[a.id].path !in C.UNQUEUED
    requires Agrees(retention, Replayed(s, a.id), s.next, a.done, first, second, spare)
    ensures var events := TryEvents(s, a, first, second, spare);
            var t := Run(retention, s, events);
            && SystemInv(retention, t) && t.calls == s.calls && s.seen <= t.seen
            && (a.out == C.Returned ==> SeenKey(t.seen, s.outbox[a.id].key))
            && ReplayLeaves(s.outbox, OutboxOf(a.after, encode), a.id, a.unused, a.out)
            && exists n :: n >= s.next && ReplayLeaves(s.outbox, t.outbox, a.id, n, a.out)
  {
    hide Run, SystemInv, CallEvents, TryEvents, Agrees, Left, SeenKey, Settled, Happens;
    var id, submitted := a.id, Replayed(s, a.id);
    C.QueuedItem(a.before, a.unused, a.started, id);
    hide C.Queue;
    ReplayShape(a.before[id], keys, a.minted, a.minted', a.hadToken, a.done, a.out);
    TryRun(retention, s, a, first, second, spare);
    var call := CallEvents(s.next, a.done, first, second, spare, a.out);
    CallRuns(retention, submitted, s.next, a.done, first, second, spare, a.out);
    NewCall(retention, s);
    OldItem(retention, s, id);
    var t := Run(retention, submitted, call);
    SettlesCall(s, submitted, t, id, a.out);
    InOutcome(submitted, t, s.next, s.outbox[id].key, a.out);
    SeesKey(submitted, t, s.next, s.outbox[id].key, a.out);
    SettleHappens(retention, t, s.next);
    SameOutbox(a.before, a.after, id, a.unused, a.nextId, a.ended, a.out, encode);
  }

  function TryEvents(s: System, a: C.Attempt, first: Meanwhile, second: Meanwhile, spare: string): seq<Event>
    requires 1 <= |a.done| <= 2
  {
    [StartReplay(a.id)] + CallEvents(s.next, a.done, first, second, spare, a.out) + [Settle(s.next)]
  }

  /** It is the call's own events, between the start of the replay and the end of its store
      transaction. */
  lemma TryRun(retention: int, s: System, a: C.Attempt, first: Meanwhile, second: Meanwhile, spare: string)
    requires SystemInv(retention, s) && a.id in s.outbox && 1 <= |a.done| <= 2
    ensures SystemInv(retention, Replayed(s, a.id))
    ensures var t := Run(retention, s, TryEvents(s, a, first, second, spare));
            var call := CallEvents(s.next, a.done, first, second, spare, a.out);
            && SystemInv(retention, t)
            && t == Happens(retention, Run(retention, Replayed(s, a.id), call), Settle(s.next))
  {
    hide Run, SystemInv, CallEvents, Happens, Replayed;
    ReplayRun(retention, s, a.id);
    RunOne(retention, s, StartReplay(a.id));
    RunKeepsInv(retention, s, [StartReplay(a.id)]);
    var call := CallEvents(s.next, a.done, first, second, spare, a.out);
    RunConcat(retention, s, [StartReplay(a.id)], call);
    RunPush(retention, s, [StartReplay(a.id)] + call, Settle(s.next));
    RunKeepsInv(retention, s, TryEvents(s, a, first, second, spare));
  }

  lemma SeesKey(s: System, t: System, c: nat, key: string, out: C.Outcome)
    requires c in s.calls && c in t.calls && Left(s, t, c, key, out)
    ensures s.seen <= t.seen == Settled(t, c).seen && (out == C.Returned ==> SeenKey(t.seen, key))
  {
  }

  lemma InOutcome(s: System, t: System, c: nat, key: string, out: C.Outcome)
    requires c in s.calls && s.calls[c].origin.Replay? && Left(s, t, c, key, out)
    ensures c in t.calls && (t.calls[c].phase.PuttingBack? || t.calls[c].phase.Deleting?)
  {
  }

  lemma OldItem(retention: int, s: System, id: nat)
    requires SystemInv(retention, s) && id in s.outbox
    ensures id < s.next
  {
    hide ClaimInv, RecordInv, Traced, KeysOk, WaitsOk, SeenOk, QueuedOk, DeletingOk;
  }

  lemma ReplayShape(item: C.Item, keys: nat -> string, before: nat, after: nat, hadToken: bool, done: seq<C.Fetch>,
                    out: C.Outcome)
    requires C.IsWrite(item.verb) && item.key != "" && C.Normalized(item.path) !in C.UNQUEUED
    requires C.Requested(item.verb, item.path, C.ReplayOptions(item), keys, before, after, hadToken, done, out)
    ensures 1 <= |done| <= 2 && C.Concludes(C.Last(done), out)
    ensures |done| == 2 ==> done[0].reply == C.Response(401)
    ensures C.Last(done).reply == C.NetworkError ==> C.Queues(C.Last(done))
  {
    C.OnlyLastFetchSettles(item.verb, item.path, C.ReplayOptions(item), done, 0);
    assert C.Last(done) in done;
    if |done| == 2 {
      assert C.Earlier(done) == [done[0]];
      assert done[0] in C.Earlier(done) && done[0] in done;
    }
  }
}
