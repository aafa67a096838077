// The browser side in one object: ApiClient.request with its retries, and the outbox with
// its replay passes.  The network, the refresh endpoint and the key source are given in
// advance as the answers to the n-th fetch and the n-th minted key.
module WriteClient {
  import opened Prelude

  datatype Verb = GET | POST | PUT | PATCH | DELETE

  datatype Reply = NetworkError | Response(status: nat)

  /** What the refresh endpoint does: new tokens, a refusal or malformed pair, or no answer. */
  datatype Refresh = Renewed | Refused | NoAnswer

  datatype Options = Options(key: Option<string>, withTenant: bool, withKey: bool, skipAuthRefresh: bool,
                             retryAttempted: bool, networkRetry: nat)

  /** One fetch as the network saw it. */
  datatype Fetch = Fetch(verb: Verb, path: string, key: Option<string>, reply: Reply)

  datatype Failure = TenantRequired | Unreachable(queued: bool) | Status(status: nat) | RefreshFailed

  datatype Outcome = Returned | Threw(failure: Failure)

  datatype Item = Item(createdAt: nat, verb: Verb, path: string, withTenant: bool, key: string, retries: nat)

  /** An item with its id, as list() returns it. */
  datatype Entry = Entry(id: nat, item: Item)

  const UNQUEUED: set<string> := {"/auth/login", "/auth/refresh", "/auth/logout"}

  predicate IsWrite(verb: Verb) { verb != GET }

  predicate Present(k: Option<string>) { k.Some? && k.value != "" }

  predicate Succeeded(r: Reply) { r.Response? && 200 <= r.status < 300 }

  function Normalized(path: string): string {
    if path != "" && path[0] == '/' then path else "/" + path
  }

  function NetworkTries(verb: Verb, o: Options): nat {
    if verb == GET && o.networkRetry < 2 then 2 - o.networkRetry else 0
  }

  function AuthTries(o: Options): nat {
    if o.retryAttempted then 0 else 1
  }

  function Last(fetches: seq<Fetch>): Fetch
    requires fetches != []
  {
    fetches[|fetches| - 1]
  }

  /** A fetch that request() follows with another one. */
  predicate Retriable(f: Fetch) {
    f.reply == Response(401) || (f.verb == GET && f.reply == NetworkError)
  }

  /** How many of these fetches got this reply. */
  function Count(fetches: seq<Fetch>, r: Reply): nat {
    if fetches == [] then 0 else (if fetches[0].reply == r then 1 else 0) + Count(fetches[1..], r)
  }

  function Earlier(fetches: seq<Fetch>): seq<Fetch>
    requires fetches != []
  {
    fetches[..|fetches| - 1]
  }

  /** The fetches of one request: all but the last retriable, no more of either kind than
      there are retries, every write keyed. */
  ghost predicate Trace(verb: Verb, path: string, o: Options, fetches: seq<Fetch>) {
    && fetches != []
    && (forall f :: f in fetches ==> f.verb == verb && f.path == Normalized(path))
    && (forall f :: f in Earlier(fetches) ==> Retriable(f))
    && Count(Earlier(fetches), Response(401)) <= AuthTries(o)
    && Count(Earlier(fetches), NetworkError) <= NetworkTries(verb, o)
    && (Present(o.key) || !o.withKey || !IsWrite(verb) ==> forall f :: f in fetches ==> f.key == o.key)
  }

  /** Why there was no further fetch: every retry of the kind has been used up, or the token
      could not be renewed. */
  ghost predicate Exhausted(verb: Verb, o: Options, hadToken: bool, fetches: seq<Fetch>, out: Outcome)
    requires fetches != []
  {
    && (verb == GET && Last(fetches).reply == NetworkError ==>
        Count(Earlier(fetches), NetworkError) == NetworkTries(verb, o))
    && (out == Threw(Status(401)) ==>
          o.skipAuthRefresh || !hadToken || Count(Earlier(fetches), Response(401)) == AuthTries(o))
    && (Count(Earlier(fetches), Response(401)) > 0 || out == Threw(RefreshFailed) ==> hadToken && !o.skipAuthRefresh)
    && (out == Threw(RefreshFailed) ==> Count(Earlier(fetches), Response(401)) < AuthTries(o))
  }

  /** A write without a key of its own gets a newly minted one at every fetch. */
  ghost predicate Minted(verb: Verb, o: Options, keys: nat -> string, before: nat, after: nat, fetches: seq<Fetch>) {
    if IsWrite(verb) && o.withKey && !Present(o.key) then
      after == before + |fetches| && forall i :: 0 <= i < |fetches| ==> fetches[i].key == Some(keys(before + i))
    else after == before
  }

  /** The write whose last fetch this is goes to the outbox. */
  predicate Queues(last: Fetch) {
    IsWrite(last.verb) && last.reply == NetworkError && last.path !in UNQUEUED && Present(last.key)
  }

  /** What the last fetch makes of the request. */
  ghost predicate Concludes(last: Fetch, out: Outcome) {
    && (out == Returned <==> Succeeded(last.reply))
    && (last.reply == NetworkError ==> out == Threw(Unreachable(Queues(last))))
    && (last.reply.Response? ==> !(out.Threw? && out.failure.Unreachable?))
    && (out.Threw? && out.failure.Status? ==> last.reply == Response(out.failure.status))
    && (out.Threw? && out.failure.RefreshFailed? ==> last.reply == Response(401))
    && out != Threw(TenantRequired)
  }

  /** What the network answered is what was recorded. */
  ghost predicate Honest(replies: nat -> Reply, fetches: seq<Fetch>) {
    forall i :: 0 <= i < |fetches| ==> fetches[i].reply == replies(i)
  }

  /** The token was renewed after each 401 that another fetch follows, and was not after the one at
      which the request gave up for that reason. */
  ghost predicate Refreshed(refreshes: nat -> Refresh, n: nat, fetches: seq<Fetch>, out: Outcome) {
    && (forall i :: 0 <= i < |fetches| - 1 && fetches[i].reply == Response(401) ==> refreshes(n + i + 1) == Renewed)
    && (out == Threw(RefreshFailed) ==> refreshes(n + |fetches|) != Renewed)
  }

  lemma NothingRefreshed(refreshes: nat -> Refresh, n: nat)
    ensures Refreshed(refreshes, n, [], Threw(TenantRequired))
  {}

  lemma RefreshedOne(refreshes: nat -> Refresh, n: nat, f: Fetch, out: Outcome)
    requires out == Threw(RefreshFailed) ==> refreshes(n + 1) != Renewed
    ensures Refreshed(refreshes, n, [f], out)
  {}

  lemma RefreshedMore(refreshes: nat -> Refresh, n: nat, f: Fetch, rest: seq<Fetch>, out: Outcome)
    requires Refreshed(refreshes, n + 1, rest, out) && (f.reply == Response(401) ==> refreshes(n + 1) == Renewed)
    ensures Refreshed(refreshes, n, [f] + rest, out)
  {
    forall i | 0 <= i < |rest| && ([f] + rest)[i].reply == Response(401)
      ensures refreshes(n + i + 1) == Renewed
    {
      if i > 0 { assert ([f] + rest)[i] == rest[i - 1] && refreshes(n + 1 + (i - 1) + 1) == Renewed; }
    }
  }

  /** What every stored item is: a keyed write, queued earlier under an earlier id. */
  ghost predicate Queue(store: map<nat, Item>, nextId: nat, clock: nat) {
    forall i :: i in store ==>
      && i < nextId && store[i].createdAt <= clock
      && IsWrite(store[i].verb) && store[i].key != "" && Normalized(store[i].path) == store[i].path
  }

  lemma QueuedItem(store: map<nat, Item>, nextId: nat, clock: nat, id: nat)
    requires Queue(store, nextId, clock) && id in store
    ensures id < nextId && nextId !in store
    ensures IsWrite(store[id].verb) && store[id].key != "" && Normalized(store[id].path) == store[id].path
    ensures Queue(store[id := PutBack(store[id])], nextId, clock)
  {}

  function ReplayOptions(item: Item): Options {
    Options(Some(item.key), item.withTenant, false, false, false, 0)
  }

  function PutBack(item: Item): Item {
    item.(retries := item.retries + 1)
  }

  function Ids(entries: seq<Entry>): seq<nat> {
    seq(|entries|, i requires 0 <= i < |entries| => entries[i].id)
  }

  function IdSet(entries: seq<Entry>): set<nat> {
    set e | e in entries :: e.id
  }

  lemma NoIds(entries: seq<Entry>)
    ensures Ids(entries[..0]) == [] && IdSet(entries[..0]) == {}
  {}

  /** A request under this key was answered with success. */
  ghost predicate Acknowledged(fetches: seq<Fetch>, key: string) {
    exists f :: f in fetches && f.key == Some(key) && Succeeded(f.reply)
  }

  /** The entries list every item of the store once, oldest first. */
  ghost predicate Lists(entries: seq<Entry>, store: map<nat, Item>) {
    && (forall e :: e in entries ==> e.id in store && store[e.id] == e.item)
    && (forall id :: id in store ==> Entry(id, store[id]) in entries)
    && (forall i, j :: 0 <= i < j < |entries| ==> entries[i].id != entries[j].id)
    && (forall i, j :: 0 <= i < j < |entries| ==> entries[i].item.createdAt <= entries[j].item.createdAt)
  }

  /** As Lists, with these ids still to come, none of them older than an entry. */
  ghost predicate Listed(entries: seq<Entry>, store: map<nat, Item>, left: set<nat>) {
    && left <= store.Keys
    && (forall e :: e in entries ==> e.id in store && e.id !in left && store[e.id] == e.item)
    && (forall id :: id in store && id !in left ==> Entry(id, store[id]) in entries)
    && (forall i, j :: 0 <= i < j < |entries| ==> entries[i].id != entries[j].id)
    && (forall i, j :: 0 <= i < j < |entries| ==> entries[i].item.createdAt <= entries[j].item.createdAt)
    && (forall e, k :: e in entries && k in left ==> e.item.createdAt <= store[k].createdAt)
  }

  lemma ListOldest(entries: seq<Entry>, store: map<nat, Item>, left: set<nat>, k: nat)
    requires Listed(entries, store, left) && k in left
    requires forall l :: l in left ==> store[k].createdAt <= store[l].createdAt
    ensures Listed(entries + [Entry(k, store[k])], store, left - {k})
  {
    var more := entries + [Entry(k, store[k])];
    forall i, j | 0 <= i < j < |more|
      ensures more[i].id != more[j].id && more[i].item.createdAt <= more[j].item.createdAt
    {
      assert more[i] in entries;
    }
  }

  lemma {:induction false} OldestExists(ids: set<nat>, store: map<nat, Item>)
    requires ids != {} && ids <= store.Keys
    ensures exists k :: k in ids && forall l :: l in ids ==> store[k].createdAt <= store[l].createdAt
    decreases |ids|
  {
    var i :| i in ids;
    if ids - {i} != {} {
      OldestExists(ids - {i}, store);
      var k :| k in ids - {i} && forall l :: l in ids - {i} ==> store[k].createdAt <= store[l].createdAt;
      if store[k].createdAt <= store[i].createdAt {
        assert forall l :: l in ids ==> store[k].createdAt <= store[l].createdAt;
      } else {
        assert forall l :: l in ids ==> store[i].createdAt <= store[l].createdAt;
      }
    } else {
      assert ids == {i};
    }
  }

  lemma IdsExtend(entries: seq<Entry>, n: nat)
    requires n < |entries|
    ensures Ids(entries[..n + 1]) == Ids(entries[..n]) + [entries[n].id]
    ensures IdSet(entries[..n + 1]) == IdSet(entries[..n]) + {entries[n].id}
    ensures (forall i :: 0 <= i < n ==> entries[i].id != entries[n].id) ==> entries[n].id !in IdSet(entries[..n])
  {
    assert entries[..n + 1] == entries[..n] + [entries[n]];
  }

  /** The options of the next attempt of a GET that got no answer, and of a call whose token was renewed. */
  predicate Backoff(verb: Verb, o: Options, next: Options) {
    verb == GET && o.networkRetry < 2 && next == o.(networkRetry := o.networkRetry + 1)
  }

  predicate Renewal(o: Options, next: Options) {
    !o.retryAttempted && next == o.(retryAttempted := true)
  }

  lemma FewerTries(verb: Verb, o: Options, next: Options)
    requires Backoff(verb, o, next) || Renewal(o, next)
    ensures NetworkTries(verb, next) + AuthTries(next) < NetworkTries(verb, o) + AuthTries(o)
  {}

  /** The fetch made under these options, with a newly minted key if it needs one. */
  ghost predicate Carries(f: Fetch, verb: Verb, path: string, o: Options, keys: nat -> string, before: nat,
                          after: nat) {
    && f.verb == verb && f.path == Normalized(path)
    && if IsWrite(verb) && o.withKey && !Present(o.key) then f.key == Some(keys(before)) && after == before + 1
       else f.key == o.key && after == before
  }

  /** All that a request does on the network, and what it tells its caller. */
  ghost predicate Requested(verb: Verb, path: string, o: Options, keys: nat -> string, before: nat, after: nat,
                            hadToken: bool, done: seq<Fetch>, out: Outcome)
  {
    && done != [] && Trace(verb, path, o, done) && Concludes(Last(done), out)
    && Exhausted(verb, o, hadToken, done, out) && Minted(verb, o, keys, before, after, done)
  }

  lemma EndsHere(verb: Verb, path: string, o: Options, keys: nat -> string, before: nat, after: nat, hadToken: bool,
                 f: Fetch, out: Outcome)
    requires Carries(f, verb, path, o, keys, before, after) && Concludes(f, out)
    requires verb == GET && f.reply == NetworkError ==> o.networkRetry >= 2
    requires out == Threw(Status(401)) ==> o.skipAuthRefresh || !hadToken || o.retryAttempted
    requires out == Threw(RefreshFailed) ==> hadToken && !o.skipAuthRefresh && !o.retryAttempted
    ensures Requested(verb, path, o, keys, before, after, hadToken, [f], out)
  {
    assert Earlier([f]) == [];
  }

  lemma GoesOn(verb: Verb, path: string, o: Options, next: Options, keys: nat -> string, before: nat, mid: nat,
               after: nat,
               hadToken: bool, out: Outcome, f: Fetch, rest: seq<Fetch>)
    requires Carries(f, verb, path, o, keys, before, mid)
    requires Requested(verb, path, next, keys, mid, after, hadToken, rest, out)
    requires (Backoff(verb, o, next) && f.reply == NetworkError)
             || (Renewal(o, next) && f.reply == Response(401) && hadToken && !o.skipAuthRefresh)
    ensures Requested(verb, path, o, keys, before, after, hadToken, [f] + rest, out)
  {
    hide Concludes, Normalized;
    assert Last([f] + rest) == Last(rest);
    assert Earlier([f] + rest) == [f] + Earlier(rest);
    assert ([f] + Earlier(rest))[1..] == Earlier(rest);
  }

  /** The store after a request: a copy of a write that got no answer, or nothing new. */
  ghost predicate StoreAfter(before: map<nat, Item>, unused: nat, after: map<nat, Item>, nextId: nat, clock: nat,
                             verb: Verb, path: string, withTenant: bool, done: seq<Fetch>, out: Outcome)
  {
    if out == Threw(Unreachable(true)) then
      && nextId == unused + 1 && done != [] && Last(done).key.Some?
      && after == before[unused := Item(clock, verb, path, withTenant, Last(done).key.value, 0)]
    else after == before && nextId == unused
  }

  /** The store after a failed replay of the item under this id. */
  ghost predicate StaysQueued(before: map<nat, Item>, id: nat, unused: nat, after: map<nat, Item>, nextId: nat,
                              clock: nat,
                              failure: Failure)
    requires id in before
  {
    var item := before[id];
    if failure == Unreachable(true) then
      && unused !in before && nextId == unused + 1
      && after == before[unused := Item(clock, item.verb, Normalized(item.path), item.withTenant, item.key, 0)]
                        [id := PutBack(item)]
    else after == before[id := PutBack(item)] && nextId == unused
  }

  /** One call of retry on a stored item: the store before and after it, the counters of ids, time
      and minted keys, its fetches and its outcome. */
  datatype Attempt = Attempt(id: nat, before: map<nat, Item>, after: map<nat, Item>, unused: nat, nextId: nat,
                             started: nat, ended: nat, minted: nat, minted': nat, hadToken: bool, done: seq<Fetch>,
                             out: Outcome)

  /** The item of an attempt, as it was sent; without a tenant that it needs there is no fetch. */
  ghost predicate Sent(keys: nat -> string, hasTenant: bool, a: Attempt)
    requires a.id in a.before
  {
    var item := a.before[a.id];
    if item.withTenant && !hasTenant then a.out == Threw(TenantRequired) && a.done == []
    else Requested(item.verb, item.path, ReplayOptions(item), keys, a.minted, a.minted', a.hadToken, a.done, a.out)
  }

  ghost predicate Retried(keys: nat -> string, hasTenant: bool, a: Attempt) {
    && Queue(a.before, a.unused, a.started) && a.id in a.before && Sent(keys, hasTenant, a)
    && if a.out == Returned then a.after == a.before - {a.id}
       else StaysQueued(a.before, a.id, a.unused, a.after, a.nextId, a.ended, a.out.failure)
  }

  function TriedIds(tries: seq<Attempt>): seq<nat> {
    seq(|tries|, i requires 0 <= i < |tries| => tries[i].id)
  }

  function FetchesOf(tries: seq<Attempt>): seq<Fetch> {
    if tries == [] then [] else FetchesOf(tries[..|tries| - 1]) + tries[|tries| - 1].done
  }

  predicate AllReturned(tries: seq<Attempt>) {
    forall a :: a in tries ==> a.out == Returned
  }

  /** These attempts, one after the other, take the store from before to after: each starts where
      the one before it left the store, and only the last may have failed. */
  ghost predicate Pass(keys: nat -> string, hasTenant: bool, tries: seq<Attempt>, before: map<nat, Item>,
                       after: map<nat, Item>)
  {
    if tries == [] then after == before
    else
      var n := |tries| - 1;
      && Pass(keys, hasTenant, tries[..n], before, tries[n].before) && Retried(keys, hasTenant, tries[n])
      && AllReturned(tries[..n]) && tries[n].after == after
  }

  lemma PassNone(keys: nat -> string, hasTenant: bool, store: map<nat, Item>)
    ensures Pass(keys, hasTenant, [], store, store) && AllReturned([]) && TriedIds([]) == [] && FetchesOf([]) == []
  {}

  lemma PassPush(keys: nat -> string, hasTenant: bool, tries: seq<Attempt>, before: map<nat, Item>, a: Attempt)
    requires Pass(keys, hasTenant, tries, before, a.before) && Retried(keys, hasTenant, a) && AllReturned(tries)
    ensures Pass(keys, hasTenant, tries + [a], before, a.after)
    ensures AllReturned(tries + [a]) <==> a.out == Returned
    ensures TriedIds(tries + [a]) == TriedIds(tries) + [a.id] && FetchesOf(tries + [a]) == FetchesOf(tries) + a.done
  {
    hide Retried;
    assert (tries + [a])[..|tries|] == tries;
    assert a in tries + [a];
  }

  lemma SameStore(store: map<nat, Item>, nextId: nat, clock: nat, verb: Verb, path: string, withTenant: bool,
                  done: seq<Fetch>, out: Outcome)
    requires out != Threw(Unreachable(true))
    ensures StoreAfter(store, nextId, store, nextId, clock, verb, path, withTenant, done, out)
  {}

  lemma StoreSame(before: map<nat, Item>, unused: nat, after: map<nat, Item>, nextId: nat, clock: nat,
                  verb: Verb, path: string, withTenant: bool, f: Fetch, rest: seq<Fetch>, out: Outcome)
    requires StoreAfter(before, unused, after, nextId, clock, verb, path, withTenant, rest, out)
    ensures StoreAfter(before, unused, after, nextId, clock, verb, path, withTenant, [f] + rest, out)
  {
    if rest != [] { assert Last([f] + rest) == Last(rest); }
  }

  lemma Sends(f: Fetch, verb: Verb, path: string, o: Options, keys: nat -> string, before: nat, after: nat)
    requires Carries(f, verb, path, o, keys, before, after)
    ensures f.verb == verb && f.path == Normalized(path) == Normalized(f.path)
  {}

  lemma Unauthorized(f: Fetch)
    requires f.reply == Response(401)
    ensures Concludes(f, Threw(RefreshFailed))
  {}

  lemma MoreAcknowledged(done: seq<Fetch>, more: seq<Fetch>)
    ensures forall k :: Acknowledged(done, k) || Acknowledged(more, k) ==> Acknowledged(done + more, k)
  {
    forall k | Acknowledged(done, k) || Acknowledged(more, k)
      ensures Acknowledged(done + more, k)
    {
      var f :| (f in done || f in more) && f.key == Some(k) && Succeeded(f.reply);
      assert f in done + more;
    }
  }

  lemma ListedRemains(pass: seq<Entry>, store: map<nat, Item>, n: nat)
    requires Lists(pass, store) && n < |pass|
    ensures pass[n].id in store - IdSet(pass[..n]) && (store - IdSet(pass[..n]))[pass[n].id] == pass[n].item
    ensures store - IdSet(pass[..n]) - {pass[n].id} == store - IdSet(pass[..n + 1])
    ensures Ids(pass[..n + 1]) == Ids(pass[..n]) + [pass[n].id]
  {
    assert pass[n] in pass;
    IdsExtend(pass, n);
  }

  lemma HandledAcknowledged(pass: seq<Entry>, store: map<nat, Item>, n: nat, done: seq<Fetch>)
    requires Lists(pass, store) && n <= |pass|
    requires forall i :: 0 <= i < n ==> Acknowledged(done, pass[i].item.key)
    ensures forall id :: id in store && id !in store - IdSet(pass[..n]) ==> Acknowledged(done, store[id].key)
    ensures n == |pass| ==> store - IdSet(pass[..n]) == map[]
  {
    forall id | id in store && id !in store - IdSet(pass[..n])
      ensures Acknowledged(done, store[id].key)
    {
      var e :| e in pass[..n] && e.id == id;
      assert e in pass;
    }
    if n == |pass| {
      assert pass[..n] == pass;
      forall id | id in store
        ensures id in IdSet(pass)
      {
        assert Entry(id, store[id]) in pass;
      }
    }
  }

  lemma {:induction false} CountAll(fetches: seq<Fetch>)
    requires forall f :: f in fetches ==> f.reply == Response(401) || f.reply == NetworkError
    ensures |fetches| == Count(fetches, Response(401)) + Count(fetches, NetworkError)
  {
    if fetches != [] {
      assert fetches[0] in fetches;
      assert forall f :: f in fetches[1..] ==> f in fetches;
      CountAll(fetches[1..]);
    }
  }

  /** A write ends at its first answer other than 401, and a fresh call makes at most two
      fetches for a write and four for a GET: of all the keys one call uses, only the last can
      have got past the server's authentication. */
  lemma {:induction false} OnlyLastFetchSettles(verb: Verb, path: string, o: Options, fetches: seq<Fetch>, i: nat)
    requires Trace(verb, path, o, fetches) && i < |fetches|
    ensures |fetches| <= if IsWrite(verb) then 2 else 4
    ensures IsWrite(verb) && fetches[i].reply != Response(401) ==> i == |fetches| - 1
    ensures fetches[i].reply != Response(401) && fetches[i].reply != NetworkError ==> i == |fetches| - 1
  {
    CountAll(Earlier(fetches));
    assert fetches[i] in fetches;
    assert i < |fetches| - 1 ==> fetches[i] == Earlier(fetches)[i];
  }

  /** A replay sends the key of its item and no other, at most twice. */
  lemma ReplayTrace(item: Item, done: seq<Fetch>, out: Outcome)
    requires done != [] ==> Trace(item.verb, item.path, ReplayOptions(item), done) && Concludes(Last(done), out)
    requires IsWrite(item.verb) && item.key != "" && (done == [] ==> out != Returned)
    ensures |done| <= 2 && forall f :: f in done ==> f.key == Some(item.key)
    ensures done != [] ==> Last(done).key == Some(item.key)
    ensures out == Returned ==> Acknowledged(done, item.key)
  {
    if done != [] {
      OnlyLastFetchSettles(item.verb, item.path, ReplayOptions(item), done, 0);
      assert Last(done) in done;
    }
  }

  lemma {:induction false} CountLast(fetches: seq<Fetch>, r: Reply)
    requires fetches != []
    ensures Count(fetches, r) == Count(Earlier(fetches), r) + if Last(fetches).reply == r then 1 else 0
  {
    if |fetches| > 1 {
      CountLast(fetches[1..], r);
      assert Earlier(fetches)[1..] == Earlier(fetches[1..]) && Earlier(fetches)[0] == fetches[0];
    }
  }

  /** A fresh GET is given up for want of an answer only after the third such fetch, and goes out
      again after at most one 401. */
  lemma GetTriesThrice(path: string, o: Options, keys: nat -> string, before: nat, after: nat, hadToken: bool,
                       done: seq<Fetch>, out: Outcome)
    requires Requested(GET, path, o, keys, before, after, hadToken, done, out) && o.networkRetry == 0
    ensures Last(done).reply == NetworkError <==> Count(done, NetworkError) == 3
    ensures Count(done, NetworkError) <= 3 && Count(Earlier(done), Response(401)) <= 1
  {
    CountLast(done, NetworkError);
  }

  // ----- Said of the network and the paths alone -----

  predicate EndsWith(reply: Reply, out: Outcome) {
    match reply
    case NetworkError => out.Threw? && out.failure.Unreachable?
    case Response(status) => out == if 200 <= status <= 299 then Returned else Threw(Status(status))
  }

  /** A write ends with its first answer, unless that is a 401 and it may refresh: then with the
      second answer, or for want of a new token. */
  ghost predicate WriteEnds(replies: nat -> Reply, refreshes: nat -> Refresh, n: nat, mayRefresh: bool,
                            done: seq<Fetch>, out: Outcome)
  {
    if replies(n) == Response(401) && mayRefresh then
      if refreshes(n + 1) == Renewed then |done| == 2 && EndsWith(replies(n + 1), out)
      else |done| == 1 && out == Threw(RefreshFailed)
    else |done| == 1 && EndsWith(replies(n), out)
  }

  lemma RequestedEnds(verb: Verb, path: string, o: Options, keys: nat -> string, before: nat, after: nat,
                      hadToken: bool, done: seq<Fetch>, out: Outcome, replies: nat -> Reply,
                      refreshes: nat -> Refresh, n: nat)
    requires Requested(verb, path, o, keys, before, after, hadToken, done, out) && IsWrite(verb)
    requires forall i :: 0 <= i < |done| ==> done[i].reply == replies(n + i)
    requires Refreshed(refreshes, n, done, out)
    ensures WriteEnds(replies, refreshes, n, !o.retryAttempted && !o.skipAuthRefresh && hadToken, done, out)
  {
    hide Normalized, UNQUEUED;
    OnlyLastFetchSettles(verb, path, o, done, 0);
    if |done| == 2 {
      assert Earlier(done) == [done[0]] && done[0] in Earlier(done) && [done[0]][1..] == [];
    } else {
      assert Earlier(done) == [];
    }
    assert Last(done).reply == replies(n + |done| - 1);
  }

  /** A path with a leading slash goes out as it is, any other with one put before it. */
  predicate Slashed(path: string, sent: string) {
    if path != "" && path[0] == '/' then sent == path else sent == ['/'] + path
  }

  predicate AuthPath(path: string) {
    path in {"/auth/login", "/auth/refresh", "/auth/logout", "auth/login", "auth/refresh", "auth/logout"}
  }

  /** The store after a request: one new item exactly for a keyed write whose last fetch got no
      answer and whose path is none of the three, and no other change. */
  ghost predicate QueuesExactly(before: map<nat, Item>, after: map<nat, Item>, unused: nat, clock: nat, verb: Verb,
                                path: string, withTenant: bool, done: seq<Fetch>, out: Outcome)
  {
    if done != [] && verb != GET && Last(done).reply == NetworkError && !AuthPath(path)
       && Last(done).key != None && Last(done).key != Some("")
    then
      && out == Threw(Unreachable(true)) && Slashed(path, Last(done).path)
      && after == before[unused := Item(clock, verb, Last(done).path, withTenant, Last(done).key.value, 0)]
    else after == before && out != Threw(Unreachable(true))
  }

  lemma RequestedQueues(verb: Verb, path: string, o: Options, keys: nat -> string, minted: nat, minted': nat,
                        hadToken: bool, done: seq<Fetch>, out: Outcome, before: map<nat, Item>, unused: nat,
                        after: map<nat, Item>, nextId: nat, clock: nat)
    requires Requested(verb, path, o, keys, minted, minted', hadToken, done, out)
    requires StoreAfter(before, unused, after, nextId, clock, verb, Normalized(path), o.withTenant, done, out)
    ensures forall f :: f in done ==> Slashed(path, f.path) && f.verb == verb
    ensures QueuesExactly(before, after, unused, clock, verb, path, o.withTenant, done, out)
  {
    assert Last(done) in done;
    AuthPathIs(path);
  }

  lemma AuthPathIs(path: string)
    ensures AuthPath(path) <==> Normalized(path) in UNQUEUED
  {
    assert ['/'] + "auth/login" == "/auth/login" && ['/'] + "auth/refresh" == "/auth/refresh"
        && ['/'] + "auth/logout" == "/auth/logout";
    assert "auth/login"[0] == 'a' && "auth/refresh"[0] == 'a' && "auth/logout"[0] == 'a';
    assert "/auth/login"[0] == '/' && "/auth/refresh"[0] == '/' && "/auth/logout"[0] == '/';
    if path == "" || path[0] != '/' {
      assert Normalized(path)[1..] == path;
      assert "/auth/login"[1..] == "auth/login" && "/auth/refresh"[1..] == "auth/refresh"
          && "/auth/logout"[1..] == "auth/logout";
    }
  }

  lemma HonestTail(replies: nat -> Reply, before: seq<Fetch>, done: seq<Fetch>)
    requires Honest(replies, before + done)
    ensures forall i :: 0 <= i < |done| ==> done[i].reply == replies(|before| + i)
  {
    forall i | 0 <= i < |done| ensures done[i].reply == replies(|before| + i) {
      assert (before + done)[|before| + i] == done[i];
    }
  }

  /** What request() promises, said of the network, the store and the paths alone. */
  ghost predicate Served(replies: nat -> Reply, refreshes: nat -> Refresh, n: nat, before: map<nat, Item>,
                         after: map<nat, Item>, unused: nat, clock: nat, verb: Verb, path: string, o: Options,
                         hadToken: bool, done: seq<Fetch>, out: Outcome)
  {
    && QueuesExactly(before, after, unused, clock, verb, path, o.withTenant, done, out)
    && (forall f :: f in done ==> Slashed(path, f.path) && f.verb == verb)
    && (done != [] && verb != GET ==>
          WriteEnds(replies, refreshes, n, !o.retryAttempted && !o.skipAuthRefresh && hadToken, done, out))
  }

  lemma NothingServed(replies: nat -> Reply, refreshes: nat -> Refresh, n: nat, store: map<nat, Item>, unused: nat,
                      clock: nat, verb: Verb, path: string, o: Options, hadToken: bool)
    ensures Served(replies, refreshes, n, store, store, unused, clock, verb, path, o, hadToken, [],
                   Threw(TenantRequired))
  {}

  lemma RequestedServed(replies: nat -> Reply, refreshes: nat -> Refresh, fetches: seq<Fetch>, before: map<nat, Item>,
                        after: map<nat, Item>, unused: nat, nextId: nat, clock: nat, verb: Verb, path: string,
                        o: Options, keys: nat -> string, minted: nat, minted': nat, hadToken: bool,
                        done: seq<Fetch>, out: Outcome)
    requires Requested(verb, path, o, keys, minted, minted', hadToken, done, out)
    requires StoreAfter(before, unused, after, nextId, clock, verb, Normalized(path), o.withTenant, done, out)
    requires Honest(replies, fetches + done) && Refreshed(refreshes, |fetches|, done, out)
    ensures Served(replies, refreshes, |fetches|, before, after, unused, clock, verb, path, o, hadToken, done, out)
  {
    hide Requested, StoreAfter, Honest, Refreshed, WriteEnds, QueuesExactly, Slashed, Normalized;
    HonestTail(replies, fetches, done);
    RequestedQueues(verb, path, o, keys, minted, minted', hadToken, done, out, before, unused, after, nextId, clock);
    if IsWrite(verb) {
      RequestedEnds(verb, path, o, keys, minted, minted', hadToken, done, out, replies, refreshes, |fetches|);
    }
  }

  /** What retry() does with a stored item: gone after a success, and otherwise the same item with
      one more retry; the other items are as before, but for a copy after a network failure. */
  ghost predicate RetriedRight(before: map<nat, Item>, after: map<nat, Item>, id: nat, unused: nat, clock: nat,
                               out: Outcome)
    requires id in before
  {
    var item := before[id];
    if out == Returned then after == before - {id}
    else
      && id in after && after[id].createdAt == item.createdAt && after[id].verb == item.verb
      && after[id].path == item.path && after[id].withTenant == item.withTenant && after[id].key == item.key
      && after[id].retries == item.retries + 1
      && after - {id} == if out != Threw(Unreachable(true)) then before - {id}
                         else (before - {id})[unused := Item(clock, item.verb, item.path, item.withTenant, item.key, 0)]
  }

  lemma GoneRight(before: map<nat, Item>, id: nat, unused: nat, clock: nat)
    requires id in before
    ensures RetriedRight(before, before - {id}, id, unused, clock, Returned)
  {}

  lemma StaysQueuedRight(before: map<nat, Item>, id: nat, unused: nat, after: map<nat, Item>, nextId: nat, clock: nat,
                         failure: Failure)
    requires id in before && Normalized(before[id].path) == before[id].path && unused !in before
    requires StaysQueued(before, id, unused, after, nextId, clock, failure)
    ensures RetriedRight(before, after, id, unused, clock, Threw(failure))
  {
    var item := before[id];
    var copy := Item(clock, item.verb, item.path, item.withTenant, item.key, 0);
    if failure == Unreachable(true) {
      assert after - {id} == (before - {id})[unused := copy];
    } else {
      assert after - {id} == before - {id};
    }
  }

  /** The request that went on after its first fetch does what it promises if the rest did. */
  lemma WentOn(verb: Verb, path: string, o: Options, next: Options, keys: nat -> string, before: nat, mid: nat,
               after: nat, hadToken: bool, out: Outcome, f: Fetch, rest: seq<Fetch>, replies: nat -> Reply,
               refreshes: nat -> Refresh, fetches: seq<Fetch>, store: map<nat, Item>, unused: nat,
               now: map<nat, Item>, nextId: nat, clock: nat)
    requires Carries(f, verb, path, o, keys, before, mid)
    requires Requested(verb, path, next, keys, mid, after, hadToken, rest, out)
    requires (Backoff(verb, o, next) && f.reply == NetworkError)
             || (Renewal(o, next) && f.reply == Response(401) && hadToken && !o.skipAuthRefresh)
    requires StoreAfter(store, unused, now, nextId, clock, verb, Normalized(path), o.withTenant, rest, out)
    requires Honest(replies, fetches + ([f] + rest)) && Refreshed(refreshes, |fetches| + 1, rest, out)
    requires f.reply == Response(401) ==> refreshes(|fetches| + 1) == Renewed
    ensures var done := [f] + rest;
            && Requested(verb, path, o, keys, before, after, hadToken, done, out)
            && StoreAfter(store, unused, now, nextId, clock, verb, Normalized(path), o.withTenant, done, out)
            && Refreshed(refreshes, |fetches|, done, out)
            && Served(replies, refreshes, |fetches|, store, now, unused, clock, verb, path, o, hadToken, done, out)
  {
    hide Requested, StoreAfter, Honest, Refreshed, Served, Normalized;
    GoesOn(verb, path, o, next, keys, before, mid, after, hadToken, out, f, rest);
    StoreSame(store, unused, now, nextId, clock, verb, Normalized(path), o.withTenant, f, rest, out);
    RefreshedMore(refreshes, |fetches|, f, rest, out);
    RequestedServed(replies, refreshes, fetches, store, now, unused, nextId, clock, verb, path, o, keys, before, after,
                    hadToken, [f] + rest, out);
  }

  class Client {
    const replies: nat -> Reply
    const refreshes: nat -> Refresh    // the refresh that follows the n-th fetch
    const keys: nat -> string
    var hasTenant: bool
    var hasRefreshToken: bool
    var minted: nat
    var fetched: nat
    var clock: nat
    var store: map<nat, Item>
    var nextId: nat
    ghost var fetches: seq<Fetch>
    ghost var attempts: seq<nat>       // ids handed to retry, in order

    ghost predicate Valid()
      reads this
    {
      && fetched == |fetches| && Honest(replies, fetches)
      && Queue(store, nextId, clock)
    }

    constructor (replies: nat -> Reply, refreshes: nat -> Refresh, keys: nat -> string)
      ensures Valid() && store == map[] && fetches == [] && attempts == []
    {
      this.replies, this.refreshes, this.keys := replies, refreshes, keys;
      hasTenant, hasRefreshToken, minted, clock, store, nextId, fetched := false, false, 0, 0, map[], 0, 0;
      fetches, attempts := [], [];
    }

    // ----- outbox.ts: the store -----

    /** A new item under a new id, stamped with the current time. */
    method Enqueue(verb: Verb, path: string, withTenant: bool, key: string) returns (id: nat)
      requires Valid() && IsWrite(verb) && key != ""
      modifies this`store, this`nextId, this`clock
      ensures Valid() && id == old(nextId) && nextId == old(nextId) + 1 && id !in old(store)
      ensures store == old(store)[id := Item(clock, verb, Normalized(path), withTenant, key, 0)]
      ensures forall i :: i in old(store) ==> old(store)[i].createdAt <= store[id].createdAt
    {
      id := nextId;
      clock := clock + 1;
      store := store[id := Item(clock, verb, Normalized(path), withTenant, key, 0)];
      nextId := nextId + 1;
    }

    method Delete(id: nat)
      requires Valid()
      modifies this`store
      ensures Valid() && store == old(store) - {id}
    {
      store := store - {id};
    }

    method Clear()
      requires Valid()
      modifies this`store
      ensures Valid() && store == map[]
    {
      store := map[];
    }

    /** list(): every stored item once, oldest first. */
    method List() returns (entries: seq<Entry>)
      ensures Lists(entries, store)
    {
      entries := [];
      var left := store.Keys;
      while left != {}
        invariant Listed(entries, store, left)
        decreases |left|
      {
        OldestExists(left, store);
        var k :| k in left && forall l :: l in left ==> store[k].createdAt <= store[l].createdAt;
        ListOldest(entries, store, left, k);
        entries := entries + [Entry(k, store[k])];
        left := left - {k};
      }
    }

    // ----- api.ts -----

    /** refreshAccessToken: the tokens go on a refusal but not when nothing answers. */
    method RefreshAccessToken() returns (ok: bool)
      modifies this`hasRefreshToken
      ensures ok == (old(hasRefreshToken) && refreshes(fetched) == Renewed)
      ensures hasRefreshToken == (old(hasRefreshToken) && refreshes(fetched) != Refused)
    {
      if !hasRefreshToken { return false; }
      ok := refreshes(fetched) == Renewed;
      if refreshes(fetched) == Refused { hasRefreshToken := false; }
    }

    /** One fetch under the given key, or for a write without one under a minted key; the next
        answer of the network is recorded. */
    method FetchOnce(verb: Verb, path: string, o: Options) returns (sent: Fetch)
      requires Valid()
      modifies this`fetches, this`fetched, this`minted
      ensures Valid() && fetches == old(fetches) + [sent]
      ensures Carries(sent, verb, path, o, keys, old(minted), minted)
    {
      var key := o.key;
      if IsWrite(verb) && o.withKey && !Present(key) {
        key := Some(keys(minted));
        minted := minted + 1;
      }
      sent := Fetch(verb, Normalized(path), key, replies(fetched));
      fetches, fetched := fetches + [sent], fetched + 1;
    }

    /** The end of a request that is not tried again: a write that got no answer is queued. */
    method Finish(verb: Verb, withTenant: bool, last: Fetch) returns (out: Outcome)
      requires Valid() && last.verb == verb && Normalized(last.path) == last.path
      modifies this`store, this`nextId, this`clock
      ensures Valid() && Concludes(last, out) && !(out.Threw? && out.failure.RefreshFailed?)
      ensures out == Threw(Status(401)) ==> last.reply == Response(401)
      ensures StoreAfter(old(store), old(nextId), store, nextId, clock, verb, last.path, withTenant, [last], out)
    {
      hide Queue, Honest;
      if last.reply == NetworkError {
        var queueable := Queues(last);
        if queueable {
          var _ := Enqueue(verb, last.path, withTenant, last.key.value);
        }
        return Threw(Unreachable(queueable));
      }
      if 200 <= last.reply.status < 300 { return Returned; }
      out := Threw(Status(last.reply.status));
    }

    /** request<T>; done is what it put on the network. */
    method Request(verb: Verb, path: string, o: Options) returns (out: Outcome, ghost done: seq<Fetch>)
      requires Valid()
      modifies this`minted, this`hasRefreshToken, this`fetches, this`fetched, this`store, this`nextId, this`clock
      ensures Valid() && fetches == old(fetches) + done
      ensures if o.withTenant && !hasTenant then out == Threw(TenantRequired) && done == [] && minted == old(minted)
              else Requested(verb, path, o, keys, old(minted), minted, old(hasRefreshToken), done, out)
      ensures out != Threw(RefreshFailed) ==> hasRefreshToken == old(hasRefreshToken)
      ensures Refreshed(refreshes, old(fetched), done, out)
      ensures out == Threw(RefreshFailed) ==> hasRefreshToken == (refreshes(fetched) != Refused)
      ensures StoreAfter(old(store), old(nextId), store, nextId, clock, verb, Normalized(path), o.withTenant, done, out)
      ensures Served(replies, refreshes, old(fetched), old(store), store, old(nextId), clock, verb, path, o,
                     old(hasRefreshToken), done, out)
      decreases NetworkTries(verb, o) + AuthTries(o)
    {
      hide NetworkTries, AuthTries, Queue, Honest, Normalized, Requested, StoreAfter, Concludes, Carries, Refreshed;
      hide Served;
      NothingRefreshed(refreshes, fetched);
      if o.withTenant && !hasTenant {
        SameStore(store, nextId, clock, verb, Normalized(path), o.withTenant, [], Threw(TenantRequired));
        NothingServed(replies, refreshes, fetched, store, nextId, clock, verb, path, o, hasRefreshToken);
        return Threw(TenantRequired), [];
      }
      var sent := FetchOnce(verb, path, o);
      Sends(sent, verb, path, o, keys, old(minted), minted);
      done := [sent];
      ghost var rest, mid := [], minted;
      if sent.reply == NetworkError && verb == GET && o.networkRetry < 2 {
        var next := o.(networkRetry := o.networkRetry + 1);
        FewerTries(verb, o, next);
        out, rest := Request(verb, path, next);
        done := [sent] + rest;
        assert fetches == old(fetches) + done;
        WentOn(verb, path, o, next, keys, old(minted), mid, minted, old(hasRefreshToken), out, sent, rest, replies,
               refreshes, old(fetches), old(store), old(nextId), store, nextId, clock);
        return;
      }
      if sent.reply == Response(401) && !o.retryAttempted && !o.skipAuthRefresh && hasRefreshToken {
        var ok := RefreshAccessToken();
        if ok {
          var next := o.(retryAttempted := true);
          FewerTries(verb, o, next);
          out, rest := Request(verb, path, next);
          done := [sent] + rest;
          assert fetches == old(fetches) + done;
          WentOn(verb, path, o, next, keys, old(minted), mid, minted, old(hasRefreshToken), out, sent, rest, replies,
                 refreshes, old(fetches), old(store), old(nextId), store, nextId, clock);
          return;
        }
        out := Threw(RefreshFailed);
        Unauthorized(sent);
        SameStore(store, nextId, clock, verb, Normalized(path), o.withTenant, done, out);
      } else {
        out := Finish(verb, o.withTenant, sent);
      }
      EndsHere(verb, path, o, keys, old(minted), minted, old(hasRefreshToken), sent, out);
      RefreshedOne(refreshes, old(fetched), sent, out);
      RequestedServed(replies, refreshes, old(fetches), old(store), store, old(nextId), nextId, clock, verb, path, o,
                      keys, old(minted), minted, old(hasRefreshToken), done, out);
    }

    // ----- outbox.ts: replay -----

    /** retry(id): the stored item goes only when its own key was answered with success; on a
        failure it is put back, and a failure of the network adds a copy with the same key. */
    method Retry(id: nat) returns (out: Outcome, ghost done: seq<Fetch>, ghost tried: Attempt)
      requires Valid()
      modifies this`minted, this`hasRefreshToken, this`fetches, this`fetched, this`store, this`nextId, this`clock
      modifies this`attempts
      ensures Valid() && fetches == old(fetches) + done
      ensures id !in old(store) ==>
                out == Returned && store == old(store) && nextId == old(nextId) && done == []
                  && attempts == old(attempts)
      ensures id in old(store) ==>
                && attempts == old(attempts) + [id]
                && (out == Returned ==>
                      store == old(store) - {id} && nextId == old(nextId) && Acknowledged(done, old(store)[id].key))
                && (out.Threw? ==> StaysQueued(old(store), id, old(nextId), store, nextId, clock, out.failure))
                && (out != Returned ==> old(store).Keys <= store.Keys)
                && |done| <= 2
                && forall f :: f in done ==> f.key == Some(old(store)[id].key)
      ensures id in old(store) ==>
                && Retried(keys, hasTenant, tried) && tried.id == id && tried.done == done && tried.out == out
                && tried.before == old(store) && tried.after == store
                && tried.minted == old(minted) && tried.minted' == minted && tried.hadToken == old(hasRefreshToken)
      ensures id in old(store) ==>
                && RetriedRight(old(store), store, id, old(nextId), clock, out)
                && (done != [] ==> WriteEnds(replies, refreshes, old(fetched), old(hasRefreshToken), done, out))
    {
      hide Trace, Exhausted, Minted, Concludes, Honest, Acknowledged, Queue, WriteEnds, RetriedRight, QueuesExactly;
      tried := Attempt(id, store, store, nextId, nextId, clock, clock, minted, minted, hasRefreshToken, [], Returned);
      if id !in store { return Returned, [], tried; }
      var item := store[id];
      QueuedItem(store, nextId, clock, id);
      attempts := attempts + [id];
      out, done := Request(item.verb, item.path, ReplayOptions(item));
      ReplayTrace(item, done, out);
      if out == Returned {
        Delete(id);
      } else {
        QueuedItem(store, nextId, clock, id);
        store := store[id := PutBack(item)];
        StaysQueuedRight(old(store), id, old(nextId), store, nextId, clock, out.failure);
      }
      assert out == Returned ==> RetriedRight(old(store), store, id, old(nextId), clock, out) by {
        if out == Returned { GoneRight(old(store), id, old(nextId), clock); }
      }
      tried := tried.(after := store, nextId := nextId, ended := clock, minted' := minted, done := done, out := out);
    }

    /** retryAll(): the listed items in order, up to the first that fails. */
    method RetryAll() returns (out: Outcome, ghost done: seq<Fetch>, ghost pass: seq<Entry>, ghost handled: nat,
                               ghost tries: seq<Attempt>)
      requires Valid()
      modifies this`minted, this`hasRefreshToken, this`fetches, this`fetched, this`store, this`nextId, this`clock
      modifies this`attempts
      ensures Valid() && fetches == old(fetches) + done
      ensures Lists(pass, old(store)) && handled <= |pass| && (out == Returned <==> handled == |pass|)
      ensures attempts == old(attempts) + Ids(pass[..if out == Returned then handled else handled + 1])
      ensures forall i :: 0 <= i < handled ==> Acknowledged(done, pass[i].item.key)
      ensures out == Returned ==> store == map[] && nextId == old(nextId)
      ensures out != Returned ==>
                && pass[handled].id in old(store) - IdSet(pass[..handled])
                && StaysQueued(old(store) - IdSet(pass[..handled]), pass[handled].id, old(nextId), store, nextId,
                               clock, out.failure)
      ensures forall id :: id in old(store) && id !in store ==> Acknowledged(done, old(store)[id].key)
      ensures Pass(keys, hasTenant, tries, old(store), store)
      ensures attempts == old(attempts) + TriedIds(tries) && done == FetchesOf(tries)
      ensures out == Returned <==> AllReturned(tries)
    {
      hide StaysQueued, Acknowledged, Queue, Honest, Lists, Ids, IdSet, Pass, Retried, TriedIds, AllReturned, FetchesOf;
      hide RetriedRight, WriteEnds;
      var entries := List();
      pass, handled, out, done, tries := entries, 0, Returned, [], [];
      PassNone(keys, hasTenant, store);
      NoIds(entries);
      var n := 0;
      while n < |entries|
        invariant Valid() && n <= |entries| && out == Returned
        invariant fetches == old(fetches) + done
        invariant store == old(store) - IdSet(entries[..n]) && nextId == old(nextId)
        invariant attempts == old(attempts) + Ids(entries[..n])
        invariant forall i :: 0 <= i < n ==> Acknowledged(done, entries[i].item.key)
        invariant Pass(keys, hasTenant, tries, old(store), store) && AllReturned(tries)
        invariant attempts == old(attempts) + TriedIds(tries) && done == FetchesOf(tries)
      {
        var e := entries[n];
        ListedRemains(entries, old(store), n);
        ghost var more, tried;
        out, more, tried := Retry(e.id);
        PassPush(keys, hasTenant, tries, old(store), tried);
        tries := tries + [tried];
        MoreAcknowledged(done, more);
        done := done + more;
        handled := n;
        if out != Returned {
          HandledAcknowledged(entries, old(store), n, done);
          return;
        }
        n := n + 1;
      }
      handled := n;
      assert entries[..n] == entries;
      HandledAcknowledged(entries, old(store), n, done);
    }
  }
}
