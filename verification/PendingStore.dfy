/** Whole-method model of the pending-request store: each method runs alone. */
module PendingStores {
  import opened Protocol
  import opened Counting
  import opened PendingOps

  // ---- whole methods on values ----

  function Add(s: Store, p: Pending): Store {
    IncIndex(IncGauge(PutRequest(s, p)), p.tunnelId)
  }

  function Remove(s: Store, id: Uuid): Store {
    if id !in s.requests then s else
      var t := s.requests[id].tunnelId;
      var s' := DecIndex(DecGauge(TakeRequest(s, id)), t);
      if EntryAtZero(s', t) then DropIndex(s', t) else s'
  }

  /** Remove the listed ids in turn. */
  function RemoveAll(s: Store, ids: seq<Uuid>): Store {
    if ids == [] then s else Remove(RemoveAll(s, ids[..|ids| - 1]), ids[|ids| - 1])
  }

  /** The requests those removals find, in order. */
  function Found(s: Store, ids: seq<Uuid>): seq<Pending> {
    if ids == [] then [] else
      var id := ids[|ids| - 1];
      var earlier := ids[..|ids| - 1];
      var left := RemoveAll(s, earlier).requests;
      Found(s, earlier) + if id in left then [left[id]] else []
  }

  function Answers(found: seq<Pending>, cause: Answerer): seq<Reply> {
    seq(|found|, i requires 0 <= i < |found| => Answer(found[i], cause))
  }

  // ---- the index agrees with the map ----

  ghost predicate IndexExactAt(s: Store, t: Uuid) {
    var n := Count(s.requests, OnTunnel(t));
    (t in s.perTunnel <==> n > 0) && (t in s.perTunnel ==> s.perTunnel[t] == n)
  }

  ghost predicate IndexExact(s: Store) {
    forall t :: IndexExactAt(s, t)
  }

  ghost predicate Consistent(s: Store) {
    SelfKeyed(s.requests) && IndexExact(s) && s.gauge == |s.requests|
  }

  lemma IndexIsCount(s: Store, t: Uuid)
    requires Consistent(s)
    ensures CountForTunnel(s, t) == Count(s.requests, OnTunnel(t))
  {
    assert IndexExactAt(s, t);
  }

  lemma AddConsistent(s: Store, p: Pending)
    requires Consistent(s)
    requires p.requestId !in s.requests && p.sender == p.requestId
    ensures Consistent(Add(s, p))
  {
    forall t ensures IndexExactAt(Add(s, p), t) {
      CountUpdate(s.requests, p.requestId, p, OnTunnel(t));
      assert IndexExactAt(s, t);
    }
    SizeUpdate(s.requests, p.requestId, p);
  }

  lemma RemoveRequests(s: Store, id: Uuid)
    ensures Remove(s, id).requests == s.requests - {id}
  {
    if id !in s.requests {
      assert s.requests - {id} == s.requests;
    }
  }

  lemma RemoveIndexExact(s: Store, id: Uuid, t: Uuid)
    requires Consistent(s) && id in s.requests
    ensures IndexExactAt(Remove(s, id), t)
  {
    CountRemove(s.requests, id, OnTunnel(t));
    assert IndexExactAt(s, t);
  }

  lemma RemoveConsistent(s: Store, id: Uuid)
    requires Consistent(s)
    ensures Consistent(Remove(s, id))
    ensures Remove(s, id).expiredTotal == s.expiredTotal
  {
    SizeRemove(s.requests, id);
    if id in s.requests {
      forall t ensures IndexExactAt(Remove(s, id), t) {
        RemoveIndexExact(s, id, t);
      }
    }
  }

  /** Index and gauge are functions of the map: two consistent stores with the same requests agree on both. */
  lemma ConsistentDetermined(a: Store, b: Store)
    requires Consistent(a) && Consistent(b)
    requires a.requests == b.requests
    ensures a.perTunnel == b.perTunnel && a.gauge == b.gauge
  {
    forall t ensures t in a.perTunnel <==> t in b.perTunnel
             ensures t in a.perTunnel ==> a.perTunnel[t] == b.perTunnel[t]
    {
      assert IndexExactAt(a, t) && IndexExactAt(b, t);
    }
  }

  ghost predicate Distinct<T>(s: seq<T>) {
    forall i, j :: 0 <= i < j < |s| ==> s[i] != s[j]
  }

  ghost function Elements<T>(s: seq<T>): set<T> {
    set x | x in s
  }

  /** The order in which an iteration over the map meets the keys it selects. */
  ghost predicate Enumerates(order: seq<Uuid>, keys: set<Uuid>) {
    Distinct(order) && Elements(order) == keys
  }

  lemma MinusElements(m: map<Uuid, Pending>, front: seq<Uuid>, id: Uuid)
    ensures m - Elements(front) - {id} == m - Elements(front + [id])
  {
  }

  lemma {:induction false} RemoveAllConsistent(s: Store, ids: seq<Uuid>)
    requires Consistent(s)
    ensures Consistent(RemoveAll(s, ids))
    ensures RemoveAll(s, ids).expiredTotal == s.expiredTotal
  {
    if ids != [] {
      RemoveAllConsistent(s, ids[..|ids| - 1]);
      RemoveConsistent(RemoveAll(s, ids[..|ids| - 1]), ids[|ids| - 1]);
    }
  }

  lemma {:induction false} RemoveAllRequests(s: Store, ids: seq<Uuid>)
    ensures RemoveAll(s, ids).requests == s.requests - Elements(ids)
  {
    if ids == [] {
      assert s.requests - Elements(ids) == s.requests;
    } else {
      var front, id := ids[..|ids| - 1], ids[|ids| - 1];
      RemoveAllRequests(s, front);
      RemoveRequests(RemoveAll(s, front), id);
      assert front + [id] == ids;
      MinusElements(s.requests, front, id);
    }
  }

  /** Draining distinct pending ids hands over each of their requests, once, in that order. */
  lemma {:induction false} RemoveAllFinds(s: Store, ids: seq<Uuid>)
    requires Distinct(ids) && forall id :: id in ids ==> id in s.requests
    ensures |Found(s, ids)| == |ids|
    ensures forall i :: 0 <= i < |ids| ==> Found(s, ids)[i] == s.requests[ids[i]]
  {
    if ids != [] {
      var front, id := ids[..|ids| - 1], ids[|ids| - 1];
      RemoveAllFinds(s, front);
      RemoveAllRequests(s, front);
      assert id !in Elements(front);
    }
  }

  // ---- runs of whole methods ----

  /** The store together with the log of oneshot sends, every request ever registered, and the clock
      reading of the last sweep. */
  datatype Core = Core(store: Store, replies: seq<Reply>, registered: map<Uuid, Pending>, lastSweep: nat)

  const START: Core := Core(EMPTY, [], map[], 0)

  /** `order` is the order in which the iteration over the request map meets the selected keys. */
  datatype Event =
    | Register(tunnel: Uuid, request: Uuid, now: nat, timeout: Option<nat>)
    | Fulfil(response: Message)
    | Close(tunnel: Uuid, order: seq<Uuid>)
    | Sweep(now: nat, order: seq<Uuid>)

  /** Request ids are fresh UUIDs and the clock never runs backwards. */
  ghost predicate Enabled(c: Core, e: Event) {
    match e
    case Register(_, request, now, _) => request !in c.registered && c.lastSweep <= now
    case Fulfil(_) => true
    case Close(t, order) => Enumerates(order, Matching(c.store.requests, OnTunnel(t)))
    case Sweep(now, order) => c.lastSweep <= now && Enumerates(order, Matching(c.store.requests, ExpiredAt(now)))
  }

  predicate Admits(cfg: Config, s: Store, t: Uuid) {
    |s.requests| < cfg.maxGlobal && CountForTunnel(s, t) < cfg.maxPerTunnel
  }

  function NewPending(cfg: Config, t: Uuid, id: Uuid, now: nat, timeout: Option<nat>): Pending {
    Pending(id, now, now + (if timeout.Some? then timeout.value else cfg.defaultTimeout), id, t)
  }

  /** Remove the listed requests and answer each one found. */
  function Settle(c: Core, ids: seq<Uuid>, cause: Answerer): Core {
    c.(store := RemoveAll(c.store, ids), replies := c.replies + Answers(Found(c.store, ids), cause))
  }

  /** Only an HTTP response is delivered, to whichever request carries its id. */
  function Deliver(c: Core, response: Message): Core {
    if response.HttpResponse? then Settle(c, [response.id], ByClient(response)) else c
  }

  /** The sweeper counts the ids it collected. */
  function SweepOnce(c: Core, now: nat, order: seq<Uuid>): Core {
    var c' := Settle(c, order, BySweep(now));
    c'.(store := AddExpired(c'.store, |order|), lastSweep := now)
  }

  function Apply(cfg: Config, c: Core, e: Event): Core {
    match e
    case Register(t, id, now, timeout) =>
      if Admits(cfg, c.store, t) then
        var p := NewPending(cfg, t, id, now, timeout);
        c.(store := Add(c.store, p), registered := c.registered[id := p])
      else c
    case Fulfil(response) => Deliver(c, response)
    case Close(t, order) => Settle(c, order, ByClose(t))
    case Sweep(now, order) => SweepOnce(c, now, order)
  }

  function Run(cfg: Config, events: seq<Event>): Core {
    if events == [] then START else Apply(cfg, Run(cfg, events[..|events| - 1]), events[|events| - 1])
  }

  ghost predicate Legal(cfg: Config, events: seq<Event>) {
    events == [] ||
    (Legal(cfg, events[..|events| - 1]) && Enabled(Run(cfg, events[..|events| - 1]), events[|events| - 1]))
  }

  // ---- what every reachable state satisfies ----

  ghost predicate WithinLimits(cfg: Config, requests: map<Uuid, Pending>) {
    |requests| <= cfg.maxGlobal && forall t :: Count(requests, OnTunnel(t)) <= cfg.maxPerTunnel
  }

  /** Each registered request is either still pending, unchanged, or answered once, and never both. */
  ghost predicate Settled(requests: map<Uuid, Pending>, registered: map<Uuid, Pending>, replies: seq<Reply>) {
    && (forall k :: k in requests ==> k in registered && registered[k] == requests[k])
    && (forall k :: k in registered ==> (k in requests <==> !Answered(replies, k)))
    && OneReplyEach(replies)
    && (forall r :: r in replies ==> Justified(registered, r))
  }

  /** No pending request's deadline lies before the last sweep. */
  ghost predicate Timely(requests: map<Uuid, Pending>, lastSweep: nat) {
    forall k :: k in requests ==> lastSweep <= requests[k].deadline
  }

  ghost predicate Good(cfg: Config, c: Core) {
    && Consistent(c.store)
    && WithinLimits(cfg, c.store.requests)
    && Settled(c.store.requests, c.registered, c.replies)
    && Timely(c.store.requests, c.lastSweep)
    && c.store.expiredTotal == SweepReplies(c.replies)
  }

  lemma FreshStart(cfg: Config)
    ensures Good(cfg, START)
  {
    forall t ensures Count(START.store.requests, OnTunnel(t)) == 0 {
      CountEmpty<Uuid, Pending>(OnTunnel(t));
    }
    forall t ensures IndexExactAt(START.store, t) {
    }
  }

  lemma RegisterGood(cfg: Config, c: Core, e: Event)
    requires Good(cfg, c) && Enabled(c, e) && e.Register?
    ensures Good(cfg, Apply(cfg, c, e))
  {
    if Admits(cfg, c.store, e.tunnel) {
      var p := NewPending(cfg, e.tunnel, e.request, e.now, e.timeout);
      var c' := Apply(cfg, c, e);
      AddConsistent(c.store, p);
      SizeUpdate(c.store.requests, e.request, p);
      forall t ensures Count(c'.store.requests, OnTunnel(t)) <= cfg.maxPerTunnel {
        CountUpdate(c.store.requests, e.request, p, OnTunnel(t));
        IndexIsCount(c.store, t);
      }
      RegisterSettled(c.store.requests, c.registered, c.replies, p);
    }
  }

  lemma RegisterSettled(requests: map<Uuid, Pending>, registered: map<Uuid, Pending>, replies: seq<Reply>, p: Pending)
    requires Settled(requests, registered, replies)
    requires p.requestId !in registered
    ensures Settled(requests[p.requestId := p], registered[p.requestId := p], replies)
  {
    assert forall r :: r in replies ==> Justified(registered, r) && r.channel in registered;
    assert !Answered(replies, p.requestId);
  }

  lemma {:induction false} SweepRepliesSplit(a: seq<Reply>, b: seq<Reply>, sweep: bool)
    requires forall r :: r in b ==> r.cause.BySweep? == sweep
    ensures SweepReplies(a + b) == SweepReplies(a) + if sweep then |b| else 0
  {
    if b == [] {
      assert a + b == a;
    } else {
      SweepRepliesSplit(a, b[..|b| - 1], sweep);
      assert (a + b)[..|a + b| - 1] == a + b[..|b| - 1];
    }
  }

  ghost predicate Answerable(c: Core, ids: seq<Uuid>, cause: Answerer) {
    Distinct(ids) && forall id :: id in ids ==> id in c.store.requests && MayAnswer(c.store.requests[id], cause)
  }

  /** The sends of one settlement: one per listed request, on that request's own channel. */
  lemma SettleReplies(c: Core, ids: seq<Uuid>, cause: Answerer) returns (more: seq<Reply>)
    requires SelfKeyed(c.store.requests) && Answerable(c, ids, cause)
    ensures Settle(c, ids, cause).replies == c.replies + more
    ensures |more| == |ids|
    ensures forall i :: 0 <= i < |ids| ==> more[i] == Answer(c.store.requests[ids[i]], cause) && more[i].channel == ids[i]
  {
    RemoveAllFinds(c.store, ids);
    more := Answers(Found(c.store, ids), cause);
    assert forall i :: 0 <= i < |ids| ==> ids[i] in ids;
  }

  lemma AnsweredAppend(replies: seq<Reply>, more: seq<Reply>, ids: seq<Uuid>, k: Uuid)
    requires |more| == |ids| && forall i :: 0 <= i < |ids| ==> more[i].channel == ids[i]
    ensures Answered(replies + more, k) <==> Answered(replies, k) || k in ids
  {
    var all := replies + more;
    assert forall i :: 0 <= i < |replies| ==> all[i] == replies[i];
    assert forall i :: 0 <= i < |ids| ==> all[|replies| + i].channel == ids[i];
  }

  lemma OneReplyAppend(replies: seq<Reply>, more: seq<Reply>, ids: seq<Uuid>)
    requires OneReplyEach(replies) && Distinct(ids)
    requires |more| == |ids| && forall i :: 0 <= i < |ids| ==> more[i].channel == ids[i]
    requires forall id :: id in ids ==> !Answered(replies, id)
    ensures OneReplyEach(replies + more)
  {
    var all := replies + more;
    forall i, j | 0 <= i < j < |all| ensures all[i].channel != all[j].channel {
      if j >= |replies| {
        assert ids[j - |replies|] in ids;
      }
    }
  }

  lemma SettleSettled(c: Core, ids: seq<Uuid>, cause: Answerer)
    requires SelfKeyed(c.store.requests) && Settled(c.store.requests, c.registered, c.replies)
    requires Answerable(c, ids, cause)
    ensures Settled(c.store.requests - Elements(ids), c.registered, Settle(c, ids, cause).replies)
  {
    var more := SettleReplies(c, ids, cause);
    forall k | k in c.registered ensures k in c.store.requests - Elements(ids) <==> !Answered(c.replies + more, k) {
      AnsweredAppend(c.replies, more, ids, k);
    }
    OneReplyAppend(c.replies, more, ids);
    forall r | r in c.replies + more ensures Justified(c.registered, r) {
      if r !in c.replies {
        var i :| 0 <= i < |ids| && more[i] == r;
        assert ids[i] in ids;
      }
    }
  }

  lemma SettleGood(cfg: Config, c: Core, ids: seq<Uuid>, cause: Answerer)
    requires Good(cfg, c) && Answerable(c, ids, cause)
    ensures var c' := Settle(c, ids, cause);
      && Consistent(c'.store) && WithinLimits(cfg, c'.store.requests)
      && Settled(c'.store.requests, c'.registered, c'.replies) && Timely(c'.store.requests, c'.lastSweep)
      && c'.store.requests == c.store.requests - Elements(ids)
      && c'.store.expiredTotal == c.store.expiredTotal
      && SweepReplies(c'.replies) == SweepReplies(c.replies) + if cause.BySweep? then |ids| else 0
  {
    var c' := Settle(c, ids, cause);
    RemoveAllConsistent(c.store, ids);
    RemoveAllRequests(c.store, ids);
    RemoveAllFinds(c.store, ids);
    SettleSettled(c, ids, cause);
    SubsetSize(c'.store.requests.Keys, c.store.requests.Keys);
    forall t ensures Count(c'.store.requests, OnTunnel(t)) <= cfg.maxPerTunnel {
      SubsetSize(Matching(c'.store.requests, OnTunnel(t)), Matching(c.store.requests, OnTunnel(t)));
    }
    SweepRepliesSplit(c.replies, Answers(Found(c.store, ids), cause), cause.BySweep?);
  }

  lemma FulfilGood(cfg: Config, c: Core, e: Event)
    requires Good(cfg, c) && e.Fulfil?
    ensures Good(cfg, Apply(cfg, c, e))
  {
    if e.response.HttpResponse? {
      if e.response.id in c.store.requests {
        SettleGood(cfg, c, [e.response.id], ByClient(e.response));
      } else {
        assert [e.response.id][..0] == [];
        assert Found(c.store, [e.response.id]) == [];
        assert c.replies + [] == c.replies;
        assert Apply(cfg, c, e) == c;
      }
    }
  }

  lemma AddExpiredConsistent(s: Store, n: nat)
    requires Consistent(s)
    ensures Consistent(AddExpired(s, n))
  {
    forall t ensures IndexExactAt(AddExpired(s, n), t) {
      assert IndexExactAt(s, t);
    }
  }

  /** A sweep leaves only requests whose deadline lies after its clock reading. */
  lemma SweepLeaves(c: Core, now: nat, order: seq<Uuid>)
    requires Enabled(c, Sweep(now, order))
    ensures forall k :: k in SweepOnce(c, now, order).store.requests ==>
              now < SweepOnce(c, now, order).store.requests[k].deadline
  {
    RemoveAllRequests(c.store, order);
    assert forall k :: k in c.store.requests && c.store.requests[k].deadline <= now ==>
      k in Matching(c.store.requests, ExpiredAt(now));
  }

  lemma EnumeratesAnswerable(c: Core, order: seq<Uuid>, p: Pending -> bool, cause: Answerer)
    requires Enumerates(order, Matching(c.store.requests, p))
    requires forall k :: k in c.store.requests && p(c.store.requests[k]) ==> MayAnswer(c.store.requests[k], cause)
    ensures Answerable(c, order, cause)
  {
    forall id | id in order ensures id in c.store.requests && MayAnswer(c.store.requests[id], cause) {
      assert id in Elements(order);
    }
  }

  lemma SweepKeeps(cfg: Config, c: Core, now: nat, order: seq<Uuid>)
    requires Good(cfg, c) && Enabled(c, Sweep(now, order))
    ensures var c' := SweepOnce(c, now, order);
      && Consistent(c'.store) && WithinLimits(cfg, c'.store.requests)
      && Settled(c'.store.requests, c'.registered, c'.replies)
      && c'.store.expiredTotal == SweepReplies(c'.replies)
  {
    EnumeratesAnswerable(c, order, ExpiredAt(now), BySweep(now));
    SettleGood(cfg, c, order, BySweep(now));
    AddExpiredConsistent(Settle(c, order, BySweep(now)).store, |order|);
  }

  lemma SweepGood(cfg: Config, c: Core, now: nat, order: seq<Uuid>)
    requires Good(cfg, c) && Enabled(c, Sweep(now, order))
    ensures Good(cfg, SweepOnce(c, now, order))
  {
    SweepKeeps(cfg, c, now, order);
    SweepLeaves(c, now, order);
  }

  lemma ApplyGood(cfg: Config, c: Core, e: Event)
    requires Good(cfg, c) && Enabled(c, e)
    ensures Good(cfg, Apply(cfg, c, e))
  {
    match e
    case Register(_, _, _, _) => RegisterGood(cfg, c, e);
    case Fulfil(_) => FulfilGood(cfg, c, e);
    case Close(t, order) =>
      EnumeratesAnswerable(c, order, OnTunnel(t), ByClose(t));
      SettleGood(cfg, c, order, ByClose(t));
    case Sweep(now, order) => SweepGood(cfg, c, now, order);
  }

  lemma {:induction false} RunGood(cfg: Config, events: seq<Event>)
    requires Legal(cfg, events)
    ensures Good(cfg, Run(cfg, events))
  {
    if events == [] {
      FreshStart(cfg);
    } else {
      RunGood(cfg, events[..|events| - 1]);
      ApplyGood(cfg, Run(cfg, events[..|events| - 1]), events[|events| - 1]);
    }
  }

  /** While sweeps stay at most one interval apart, no request is pending later than its deadline plus one
      sweep interval. */
  lemma NeverPendingPastSweep(cfg: Config, events: seq<Event>, now: nat, k: Uuid)
    requires Legal(cfg, events)
    requires now <= Run(cfg, events).lastSweep + cfg.sweepInterval
    requires k in Run(cfg, events).store.requests
    ensures now <= Run(cfg, events).store.requests[k].deadline + cfg.sweepInterval
  {
    RunGood(cfg, events);
  }

  // ---- what each event does ----

  /** The answers a closing or a sweep owes these requests, one each, on their own channels. */
  function Each(order: seq<Uuid>, cause: Answerer): seq<Reply> {
    seq(|order|, i requires 0 <= i < |order| =>
      Reply(order[i],
            if cause.ByClose? then HttpResponse(order[i], 502, [("x-expose-error", "tunnel disconnected")], [])
            else HttpResponse(order[i], 504, [("x-expose-error", "tunnel response deadline exceeded")], []),
            cause))
  }

  /** Registration is refused exactly when a limit is reached by the true counts; otherwise the request is pending
      with its own deadline and counted once, for its tunnel. */
  lemma RegisterExact(cfg: Config, c: Core, t: Uuid, id: Uuid, now: nat, timeout: Option<nat>)
    requires Good(cfg, c) && Enabled(c, Register(t, id, now, timeout))
    ensures var c' := Apply(cfg, c, Register(t, id, now, timeout));
      var due := now + if timeout.Some? then timeout.value else cfg.defaultTimeout;
      if |c.store.requests| < cfg.maxGlobal && Count(c.store.requests, OnTunnel(t)) < cfg.maxPerTunnel then
        && c'.store.requests == c.store.requests[id := Pending(id, now, due, id, t)]
        && c'.store.gauge == c.store.gauge + 1
        && (forall u :: CountForTunnel(c'.store, u) == CountForTunnel(c.store, u) + Bit(u == t))
        && c'.replies == c.replies
      else c' == c
  {
    IndexIsCount(c.store, t);
  }

  /** A response to a pending request takes it out and is its one answer; any other message changes nothing. */
  lemma FulfilExact(cfg: Config, c: Core, response: Message)
    requires Good(cfg, c)
    ensures var c' := Apply(cfg, c, Fulfil(response));
      if response.HttpResponse? && response.id in c.store.requests then
        && c'.store.requests == c.store.requests - {response.id}
        && c'.replies == c.replies + [Reply(response.id, response, ByClient(response))]
        && c'.store.gauge == c.store.gauge - 1
        && (forall u :: CountForTunnel(c'.store, u) ==
              CountForTunnel(c.store, u) - Bit(c.store.requests[response.id].tunnelId == u))
      else c' == c
  {
    if response.HttpResponse? {
      assert [response.id][..0] == [];
      if response.id in c.store.requests {
        SettleOne(c.store, response.id);
        assert Found(c.store, [response.id]) == [c.store.requests[response.id]];
      } else {
        assert Found(c.store, [response.id]) == [];
        assert c.replies + [] == c.replies;
        assert Apply(cfg, c, Fulfil(response)) == c;
      }
    }
  }

  lemma SettleOne(s: Store, id: Uuid)
    requires Consistent(s) && id in s.requests
    ensures var s' := RemoveAll(s, [id]);
      && s'.requests == s.requests - {id} && s'.gauge == s.gauge - 1
      && forall u :: CountForTunnel(s', u) == CountForTunnel(s, u) - Bit(s.requests[id].tunnelId == u)
  {
    assert [id][..0] == [];
    assert RemoveAll(s, [id]) == Remove(s, id);
    RemoveConsistent(s, id);
    RemoveRequests(s, id);
    SizeRemove(s.requests, id);
    var s' := Remove(s, id);
    forall u ensures CountForTunnel(s', u) == CountForTunnel(s, u) - Bit(s.requests[id].tunnelId == u) {
      IndexIsCount(s, u);
      IndexIsCount(s', u);
      CountRemove(s.requests, id, OnTunnel(u));
    }
  }

  /** A sweep answers exactly the requests due at its clock reading, each with a 504 on its own channel, counts them
      all, and leaves every other request as it was. */
  lemma SweepExact(cfg: Config, c: Core, now: nat, order: seq<Uuid>)
    requires Good(cfg, c) && Enabled(c, Sweep(now, order))
    ensures var c' := Apply(cfg, c, Sweep(now, order));
      && c'.store.requests == c.store.requests - Matching(c.store.requests, ExpiredAt(now))
      && (forall k :: k in c.store.requests ==> (k in c'.store.requests <==> now < c.store.requests[k].deadline))
      && c'.store.expiredTotal == c.store.expiredTotal + |order| && c'.lastSweep == now
      && c'.replies == c.replies + Each(order, BySweep(now))
  {
    EnumeratesAnswerable(c, order, ExpiredAt(now), BySweep(now));
    RemoveAllConsistent(c.store, order);
    RemoveAllRequests(c.store, order);
    SettledEach(c, order, BySweep(now));
  }

  /** Closing a tunnel answers exactly its own pending requests, each with a 502 on its own channel, and leaves
      every other request, count and answer as it was. */
  lemma CloseExact(cfg: Config, c: Core, t: Uuid, order: seq<Uuid>)
    requires Good(cfg, c) && Enabled(c, Close(t, order))
    ensures var c' := Settle(c, order, ByClose(t));
      && c'.store.requests == c.store.requests - Matching(c.store.requests, OnTunnel(t))
      && Count(c'.store.requests, OnTunnel(t)) == 0
      && c'.store.perTunnel == c.store.perTunnel - {t}
      && c'.store.gauge == c.store.gauge - Count(c.store.requests, OnTunnel(t))
      && c'.replies == c.replies + Each(order, ByClose(t))
  {
    EnumeratesAnswerable(c, order, OnTunnel(t), ByClose(t));
    RemoveAllConsistent(c.store, order);
    RemoveAllRequests(c.store, order);
    CloseIndex(c.store, RemoveAll(c.store, order), t);
    CloseGauge(c.store, RemoveAll(c.store, order), t);
    SettledEach(c, order, ByClose(t));
  }

  lemma SettledEach(c: Core, order: seq<Uuid>, cause: Answerer)
    requires SelfKeyed(c.store.requests) && Answerable(c, order, cause) && !cause.ByClient?
    ensures Settle(c, order, cause).replies == c.replies + Each(order, cause)
  {
    var more := SettleReplies(c, order, cause);
    forall i | 0 <= i < |order| ensures more[i] == Each(order, cause)[i] {
      assert order[i] in order;
    }
    assert more == Each(order, cause);
  }

  lemma CloseIndexAt(s: Store, s': Store, t: Uuid, u: Uuid)
    requires Consistent(s) && Consistent(s')
    requires s'.requests == s.requests - Matching(s.requests, OnTunnel(t))
    ensures u in s'.perTunnel <==> u in s.perTunnel && u != t
    ensures u in s'.perTunnel ==> s'.perTunnel[u] == s.perTunnel[u]
  {
    assert Matching(s'.requests, OnTunnel(t)) == {};
    assert IndexExactAt(s, u) && IndexExactAt(s', u);
    if u != t {
      assert Matching(s'.requests, OnTunnel(u)) == Matching(s.requests, OnTunnel(u));
    }
  }

  lemma CloseIndex(s: Store, s': Store, t: Uuid)
    requires Consistent(s) && Consistent(s')
    requires s'.requests == s.requests - Matching(s.requests, OnTunnel(t))
    ensures s'.perTunnel == s.perTunnel - {t}
  {
    forall u ensures u in s'.perTunnel <==> u in s.perTunnel && u != t
             ensures u in s'.perTunnel ==> s'.perTunnel[u] == s.perTunnel[u]
    {
      CloseIndexAt(s, s', t, u);
    }
  }

  lemma CloseGauge(s: Store, s': Store, t: Uuid)
    requires Consistent(s) && Consistent(s')
    requires s'.requests == s.requests - Matching(s.requests, OnTunnel(t))
    ensures s'.gauge == s.gauge - Count(s.requests, OnTunnel(t))
    ensures Count(s'.requests, OnTunnel(t)) == 0
  {
    assert s'.requests.Keys == s.requests.Keys - Matching(s.requests, OnTunnel(t));
    assert Matching(s'.requests, OnTunnel(t)) == {};
  }

  // ---- the store in place ----

  class PendingStore {
    var requests: map<Uuid, Pending>
    var perTunnel: map<Uuid, nat>
    var gauge: nat
    var expiredTotal: nat
    var replies: seq<Reply>
    ghost var registered: map<Uuid, Pending>
    ghost var lastSweep: nat

    ghost function View(): Core
      reads this
    {
      Core(Store(requests, perTunnel, gauge, expiredTotal), replies, registered, lastSweep)
    }

    constructor ()
      ensures View() == START
    {
      requests, perTunnel, gauge, expiredTotal, replies := map[], map[], 0, 0, [];
      registered, lastSweep := map[], 0;
    }

    method Increment()
      modifies this`gauge
      ensures gauge == old(gauge) + 1
    {
      gauge := gauge + 1;
    }

    method Decrement()
      modifies this`gauge
      ensures gauge == if old(gauge) > 0 then old(gauge) - 1 else 0
    {
      if gauge > 0 {
        gauge := gauge - 1;
      }
    }

    method Insert(tunnelId: Uuid)
      modifies this`gauge, this`perTunnel
      ensures View().store == IncIndex(IncGauge(old(View()).store), tunnelId)
    {
      Increment();
      if tunnelId in perTunnel {
        perTunnel := perTunnel[tunnelId := perTunnel[tunnelId] + 1];
      } else {
        perTunnel := perTunnel[tunnelId := 1];
      }
    }

    method Take(requestId: Uuid) returns (removed: Option<Pending>)
      modifies this`requests, this`gauge, this`perTunnel
      ensures View().store == Remove(old(View()).store, requestId)
      ensures removed == if requestId in old(requests) then Some(old(requests)[requestId]) else None
    {
      if requestId !in requests {
        return None;
      }
      var pending := requests[requestId];
      requests := requests - {requestId};
      Decrement();
      var t := pending.tunnelId;
      if t in perTunnel {
        if perTunnel[t] > 0 {
          perTunnel := perTunnel[t := perTunnel[t] - 1];
        }
        if perTunnel[t] == 0 {
          perTunnel := perTunnel - {t};
        }
      }
      return Some(pending);
    }

    /** Iterate over the request map, in any order, keeping the keys whose request is selected. */
    method Select(p: Pending -> bool) returns (keys: seq<Uuid>)
      ensures Enumerates(keys, Matching(requests, p))
    {
      keys := [];
      var rest := requests.Keys;
      while rest != {}
        invariant rest <= requests.Keys
        invariant Distinct(keys)
        invariant forall k :: k in keys <==> k in requests && k !in rest && p(requests[k])
      {
        var k :| k in rest;
        rest := rest - {k};
        if p(requests[k]) {
          keys := keys + [k];
        }
      }
    }

    method DrainForTunnel(tunnelId: Uuid) returns (drained: seq<Pending>, ghost order: seq<Uuid>)
      modifies this`requests, this`gauge, this`perTunnel
      ensures Enumerates(order, Matching(old(requests), OnTunnel(tunnelId)))
      ensures View().store == RemoveAll(old(View()).store, order)
      ensures drained == Found(old(View()).store, order)
    {
      var keys := Select(OnTunnel(tunnelId));
      order, drained := keys, [];
      for i := 0 to |keys|
        invariant View().store == RemoveAll(old(View()).store, keys[..i])
        invariant drained == Found(old(View()).store, keys[..i])
      {
        assert keys[..i + 1][..i] == keys[..i];
        var removed := Take(keys[i]);
        if removed.Some? {
          drained := drained + [removed.value];
        }
      }
      assert keys[..|keys|] == keys;
    }

    method RegisterPending(cfg: Config, tunnelId: Uuid, requestId: Uuid, now: nat, timeout: Option<nat>)
      returns (accepted: bool)
      requires Enabled(View(), Register(tunnelId, requestId, now, timeout))
      modifies this
      ensures View() == Apply(cfg, old(View()), Register(tunnelId, requestId, now, timeout))
      ensures accepted == (|old(requests)| < cfg.maxGlobal && CountForTunnel(old(View()).store, tunnelId) < cfg.maxPerTunnel)
    {
      if |requests| >= cfg.maxGlobal {
        return false;
      }
      var tunnelPending := if tunnelId in perTunnel then perTunnel[tunnelId] else 0;
      if tunnelPending >= cfg.maxPerTunnel {
        return false;
      }
      var deadline := now + match timeout { case Some(d) => d case None => cfg.defaultTimeout };
      var pending := Pending(requestId, now, deadline, requestId, tunnelId);
      requests := requests[requestId := pending];
      registered := registered[requestId := pending];
      Insert(tunnelId);
      return true;
    }

    method Fulfill(response: Message)
      modifies this
      ensures View() == Deliver(old(View()), response)
    {
      if !response.HttpResponse? {
        return;
      }
      ghost var s := View().store;
      assert [response.id][..0] == [];
      assert RemoveAll(s, [response.id]) == Remove(s, response.id);
      var removed := Take(response.id);
      if removed.Some? {
        assert Found(s, [response.id]) == [removed.value];
        replies := replies + [Reply(removed.value.sender, response, ByClient(response))];
      } else {
        assert Found(s, [response.id]) == [];
      }
    }

    method CloseTunnel(tunnelId: Uuid) returns (ghost order: seq<Uuid>)
      modifies this
      ensures Enabled(old(View()), Close(tunnelId, order))
      ensures View() == Settle(old(View()), order, ByClose(tunnelId))
    {
      var drained;
      drained, order := DrainForTunnel(tunnelId);
      for i := 0 to |drained|
        invariant View() == old(View()).(store := RemoveAll(old(View()).store, order),
                                         replies := old(replies) + Answers(drained[..i], ByClose(tunnelId)))
      {
        assert Answers(drained[..i + 1], ByClose(tunnelId)) ==
               Answers(drained[..i], ByClose(tunnelId)) + [Answer(drained[i], ByClose(tunnelId))];
        replies := replies + [Reply(drained[i].sender, DisconnectedResponse(drained[i].requestId), ByClose(tunnelId))];
      }
      assert drained[..|drained|] == drained;
    }

    /** One tick of the sweeper. */
    method Tick(now: nat) returns (ghost order: seq<Uuid>)
      requires lastSweep <= now
      modifies this
      ensures Enabled(old(View()), Sweep(now, order))
      ensures View() == SweepOnce(old(View()), now, order)
    {
      var expiredIds := Select(ExpiredAt(now));
      order := expiredIds;
      lastSweep := now;
      for i := 0 to |expiredIds|
        invariant View() == Settle(old(View()), expiredIds[..i], BySweep(now)).(lastSweep := now)
      {
        assert expiredIds[..i + 1][..i] == expiredIds[..i];
        ghost var s, f := old(View()).store, Found(old(View()).store, expiredIds[..i]);
        var removed := Take(expiredIds[i]);
        if removed.Some? {
          assert Found(s, expiredIds[..i + 1]) == f + [removed.value];
          assert Answers(f + [removed.value], BySweep(now)) == Answers(f, BySweep(now)) + [Answer(removed.value, BySweep(now))];
          replies := replies + [Reply(removed.value.sender, TimedOutResponse(removed.value.requestId), BySweep(now))];
        }
      }
      assert expiredIds[..|expiredIds|] == expiredIds;
      expiredTotal := expiredTotal + |expiredIds|;
    }
  }
}
