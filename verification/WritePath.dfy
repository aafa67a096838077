// The whole write path: users' writes, the client's calls and outbox, a network that
// loses requests and responses, and the server's interleaved transactions.  Overlapping
// replay passes are just replays started in any order.
module WritePath {
  import opened IdempotencyServer

  // ----- State -----

  datatype Item = Item(key: string, write: Write, retries: nat)

  /** A direct call of ApiClient.request, or the one made by outbox.retry on a copy of an item. */
  datatype Origin = Direct | Replay(item: nat, copy: Item)

  datatype CallPhase =
    | Waiting(msg: nat)      // fetch in flight
    | Refreshing(msg: nat)   // 401 received, token refresh in flight
    | PuttingBack            // replay failed, its item is about to be stored again
    | Deleting               // replay succeeded, its item is about to be deleted

  datatype Call = Call(user: nat, origin: Origin, key: string, write: Write, retried: bool, phase: CallPhase)

  /** The user's write a key was minted for. */
  datatype Owner = Owner(user: nat, write: Write)

  datatype System = System(
    server: Server,
    inbox: map<nat, Request>,      // requests on their way to the server
    tenant: string,                // the tenant id in the client's storage
    actor: string,                 // the user its access token belongs to
    outbox: map<nat, Item>,
    calls: map<nat, Call>,
    next: nat,                     // source of fresh ids
    // history
    sent: map<nat, Request>,       // every request ever put on the network
    items: map<nat, string>,       // the key of every outbox id ever used
    owner: map<string, Owner>,     // every key ever minted
    retired: set<string>,          // keys given up after a 401
    queued: set<string>,           // keys ever put in the outbox
    seen: set<ClaimKey>,           // answered success to the client
    discarded: set<string>)        // keys of items the user deleted or cleared

  function Initial(tenant: string, actor: string): System {
    System(START, map[], tenant, actor, map[], map[], 0, map[], map[], map[], {}, {}, {}, {})
  }

  // ----- Events -----

  datatype Event =
    | ServerDoes(step: Step)
    | Deliver(msg: nat)
    | Unauthorize(msg: nat)
    | Lose(msg: nat)
    | Submit(key: string, write: Write)
    | StartReplay(item: nat)
    | NetworkFails(call: nat)
    | Receive(call: nat, answer: nat, canRefresh: bool)
    | RefreshOk(call: nat, key: string)
    | RefreshFails(call: nat)
    | Settle(call: nat)
    | Discard(item: nat)
    | Clear
    | SwitchTenant(t: string)
    | SwitchActor(a: string)

  predicate IsWaiting(s: System, c: nat) {
    c in s.calls && s.calls[c].phase.Waiting?
  }

  predicate IsRefreshing(s: System, c: nat) {
    c in s.calls && s.calls[c].phase.Refreshing?
  }

  predicate Possible(retention: int, s: System, e: Event) {
    match e
    case ServerDoes(a) => Enabled(retention, s.server, a) && !a.Begin? && !a.Reject?
    case Deliver(m) => m in s.inbox && Enabled(retention, s.server, Begin(m, s.inbox[m]))
    case Unauthorize(m) => m in s.inbox && Enabled(retention, s.server, Reject(m, s.inbox[m]))
    case Lose(m) => m in s.inbox
    case Submit(key, _) => key !in s.owner
    case StartReplay(i) => i in s.outbox
    case NetworkFails(c) => IsWaiting(s, c)
    case Receive(c, i, _) => IsWaiting(s, c) && i < |s.server.answers| && s.server.answers[i].id == s.calls[c].phase.msg
    case RefreshOk(c, key) => IsRefreshing(s, c) && key !in s.owner
    case RefreshFails(c) => IsRefreshing(s, c)
    case Settle(c) => c in s.calls && (s.calls[c].phase.PuttingBack? || s.calls[c].phase.Deleting?)
    case Discard(i) => i in s.outbox
    case Clear => true
    case SwitchTenant(_) => true
    case SwitchActor(_) => true
  }

  /** Send a request for call c: the tenant is the one active now. */
  function Send(s: System, c: nat, call: Call, key: string): System {
    var req := Request(s.tenant, s.actor, key, call.write);
    s.(inbox := s.inbox[s.next := req], sent := s.sent[s.next := req], next := s.next + 1,
       calls := s.calls[c := call.(key := key, phase := Waiting(s.next))])
  }

  /** ApiClient.request queues the write it could not send, under its key. */
  function Enqueue(s: System, key: string, write: Write): System {
    s.(outbox := s.outbox[s.next := Item(key, write, 0)], items := s.items[s.next := key],
       next := s.next + 1, queued := s.queued + {key})
  }

  /** The call ends in an error: a direct call is over, a replay stores its item again. */
  function CallFails(s: System, c: nat): System
    requires c in s.calls
  {
    if s.calls[c].origin.Direct? then s.(calls := s.calls - {c})
    else s.(calls := s.calls[c := s.calls[c].(phase := PuttingBack)])
  }

  /** A response has arrived: success ends a direct call and lets a replay delete its item, a
      401 is refreshed once, and anything else is an error. */
  function Received(s: System, c: nat, answer: Answer, canRefresh: bool): System
    requires IsWaiting(s, c)
  {
    var call := s.calls[c];
    if answer.code == Success then
      var t := s.(seen := s.seen + {ClaimOf(answer.req)});
      if call.origin.Direct? then t.(calls := s.calls - {c})
      else t.(calls := s.calls[c := call.(phase := Deleting)])
    else if answer.code == Unauthorized && !call.retried && canRefresh then
      s.(calls := s.calls[c := call.(phase := Refreshing(call.phase.msg))])
    else CallFails(s, c)
  }

  function PutBack(item: Item): Item {
    item.(retries := item.retries + 1)
  }

  /** The call that outbox.retry makes for item i, before it is sent. */
  function ReplayCall(s: System, i: nat): Call
    requires i in s.outbox
  {
    var item := s.outbox[i];
    Call(s.next, Replay(i, item), item.key, item.write, false, PuttingBack)
  }

  /** The store transaction that ends a replay: delete its item, or put its copy of it back. */
  function Settled(s: System, c: nat): System
    requires c in s.calls
  {
    var call := s.calls[c];
    var t := s.(calls := s.calls - {c});
    if call.origin.Direct? then t
    else if call.phase.Deleting? then t.(outbox := s.outbox - {call.origin.item})
    else t.(outbox := s.outbox[call.origin.item := PutBack(call.origin.copy)])
  }

  function Keys(outbox: map<nat, Item>): set<string> {
    set i | i in outbox :: outbox[i].key
  }

  function Do(retention: int, s: System, e: Event): System
    requires Possible(retention, s, e)
  {
    match e
    case ServerDoes(a) => s.(server := Apply(retention, s.server, a))
    case Deliver(m) => s.(inbox := s.inbox - {m}, server := Apply(retention, s.server, Begin(m, s.inbox[m])))
    case Unauthorize(m) => s.(inbox := s.inbox - {m}, server := Apply(retention, s.server, Reject(m, s.inbox[m])))
    case Lose(m) => s.(inbox := s.inbox - {m})
    case Submit(key, write) =>
      Send(s.(next := s.next + 1, owner := s.owner[key := Owner(s.next, write)]), s.next,
           Call(s.next, Direct, key, write, false, PuttingBack), key)
    case StartReplay(i) =>
      Send(s.(next := s.next + 1), s.next, ReplayCall(s, i), s.outbox[i].key)
    case NetworkFails(c) =>
      CallFails(Enqueue(s, s.calls[c].key, s.calls[c].write), c)
    case Receive(c, i, canRefresh) => Received(s, c, s.server.answers[i], canRefresh)
    case RefreshOk(c, key) =>
      // a replay repeats its own key; a direct call has none in its options and mints another
      var call := s.calls[c].(retried := true);
      if call.origin.Replay? then Send(s, c, call, call.key)
      else
        var minted := s.(owner := s.owner[key := Owner(call.user, call.write)], retired := s.retired + {call.key});
        Send(minted, c, call, key)
    case RefreshFails(c) => CallFails(s, c)
    case Settle(c) => Settled(s, c)
    case Discard(i) => s.(outbox := s.outbox - {i}, discarded := s.discarded + {s.outbox[i].key})
    case Clear => s.(outbox := map[], discarded := s.discarded + Keys(s.outbox))
    case SwitchTenant(t) => s.(tenant := t)
    case SwitchActor(a) => s.(actor := a)
  }

  /** Any run: events that are not possible do nothing. */
  function Happens(retention: int, s: System, e: Event): System {
    if Possible(retention, s, e) then Do(retention, s, e) else s
  }

  function Run(retention: int, s: System, events: seq<Event>): System {
    if events == [] then s else Happens(retention, Run(retention, s, events[..|events| - 1]), events[|events| - 1])
  }
}
